/** The store: every operation reads the two projections, decides, and appends.

    Each contract says exactly which events an operation adds to the log; that
    they may follow the log (`Legal`) is what gives every theorem about histories. */
module GoalStore {
  import Collections
  import opened FileSystem
  import opened UsageTotals
  import opened GoalLog
  import opened GoalHistory

  datatype Reply = Fine | NotFound | Conflict | Invalid

  /** A durable result: when the turn ended and the usage its response reports. */
  datatype Sidecar = Sidecar(at: Time, usage: Usage)

  const RETRY_BACKOFF: seq<int> := [60, 120, 300]
  const REMINDER_SECONDS: int := 1800
  const REARM_SECONDS: int := 300
  const DEFER_SECONDS: int := 5
  const MAX_STAGGER: int := 45
  const BLOCK_THRESHOLD: nat := 3
  const MIN_INTERVAL: int := 5
  const MAX_INTERVAL: int := 10_080

  /** When a goal is to be woken next, and every how many minutes. */
  datatype Plan = Plan(wakeAt: Option<Time>, every: nat)

  /** The schedule a caller asks for: what is not given stays, and `Some(None)` takes the next wake away. */
  datatype Fields = Fields(wakeAt: Option<Option<Time>>, every: Option<int>)

  /** An interval given without a time wakes the goal one interval from now; one out of range is refused. */
  function Planned(current: Plan, f: Fields, now: Time): Option<Plan> {
    if f.every.Some? && f.every.value != 0 && !(MIN_INTERVAL <= f.every.value <= MAX_INTERVAL) then None
    else
      var every: nat := if f.every.Some? then f.every.value else current.every;
      var again := if f.every.Some? && every > 0 then Some(now + every * 60 * SECOND) else current.wakeAt;
      Some(Plan(if f.wakeAt.Some? then f.wakeAt.value else again, every))
  }

  /** What a caller says about whose goal it means is not checked where it says nothing. */
  predicate Belongs(owner: Owner, asked: Owner) {
    && (asked.chat == "" || asked.chat == owner.chat)
    && (asked.session == "" || asked.session == owner.session)
    && (asked.project == "" || asked.project == owner.project)
  }

  function PhaseSeconds(p: Phase): int {
    match p
    case Wake => 30
    case ProjectLock => 120
    case ProviderCall => 300
    case ApplyPhase => 900
    case Deliver => 60
  }

  function Backoff(attempt: nat): int {
    RETRY_BACKOFF[if attempt <= 1 then 0 else if attempt >= 3 then 2 else attempt - 1]
  }

  function Deadline(now: Time, p: Phase): Time {
    now + PhaseSeconds(p) * SECOND
  }

  function ReceiptFor(d: Delivery, raw: Usage): Receipt {
    var delta := Bounded(raw);
    Receipt(delta, if delta.keys == [] then d.usage else Merged(d.usage, delta))
  }

  function EventFor(id: DeliveryId, d: Delivery, s: Step): Event {
    OfDelivery(id, d.revision + 1, s)
  }

  function Stepped(d: Delivery, s: Step): Delivery {
    Applied(d, s).(revision := d.revision + 1)
  }

  predicate Due(g: Goal, now: Time, stagger: int) {
    var wait := if stagger < 0 then 0 else if stagger > MAX_STAGGER then MAX_STAGGER else stagger;
    g.status.Active? && g.owner.chat != "" && g.wakeAt.Some? && g.wakeAt.value + wait * SECOND <= now
  }

  predicate Recoverable(d: Delivery) {
    !IsTerminal(d) && !d.status.Draining? && !d.status.Applying?
  }

  function Recovery(d: Delivery, g: Goal, side: Sidecar): Step {
    Complete(side.at, Advances(NextWake(g, side.at)), ReceiptFor(d, side.usage), true)
  }

  function Completion(d: Delivery, g: Goal, at: Time, usage: Usage): Step {
    Complete(at, Ends(d, g, at), ReceiptFor(d, usage), false)
  }

  function Failing(d: Delivery, g: Goal, retryable: bool, now: Time, usage: Usage): Step {
    var retries := retryable && d.attempt < MAX_ATTEMPTS;
    Fail(now, !retries, retryable, if retries then Some(now + Backoff(d.attempt) * SECOND) else None,
         if retries then Stays else Ends(d, g, now), ReceiptFor(d, usage))
  }

  /** When an occurrence that was continued has ended, its goal gets its schedule back. */
  function Closing(d: Delivery, g: Goal, s: Step, id: DeliveryId): seq<Event> {
    if d.continuation
    then [OfGoal(id.goal, Touched(g, s).revision + 1, CloseContinuation(Stepped(d, s).nextWakeAt))] else []
  }

  lemma ReceiptForPossible(d: Delivery, raw: Usage)
    requires Formed(raw)
    ensures Receivable(d, ReceiptFor(d, raw))
  {
    KeptFormed(raw);
    BoundedTwice(raw);
  }

  lemma CompletionPossible(d: Delivery, g: Goal, at: Time, usage: Usage)
    requires Completable(d) && Formed(usage)
    ensures Possible(d, g, Completion(d, g, at, usage))
    ensures Stepped(d, Completion(d, g, at, usage)).status.Completed?
    ensures Stepped(d, Completion(d, g, at, usage)).approval == d.approval
  {
    ReceiptForPossible(d, usage);
  }

  lemma FailedForGood(d: Delivery, g: Goal, now: Time, usage: Usage)
    ensures Failing(d, g, false, now, usage).terminal
    ensures var e := Stepped(d, Failing(d, g, false, now, usage)); Closed(e) && e.approval == d.approval
  {
  }

  class Store {
    var log: Log
    var sidecars: map<DeliveryId, Sidecar>
    const runner: nat

    function D(id: DeliveryId): Option<Delivery>
      reads this`log
    {
      DeliveryOf(log, id)
    }

    function G(goal: nat): Option<Goal>
      reads this`log
    {
      GoalOf(log, goal)
    }

    /** The log may have grown as it did, and every result file holds a dictionary. */
    ghost predicate Valid()
      reads this
    {
      Legal(log) && forall id | id in sidecars :: Formed(sidecars[id].usage)
    }

    constructor (runner: nat)
      ensures Valid() && log == [] && sidecars == map[] && this.runner == runner
    {
      log, sidecars, this.runner := [], map[], runner;
    }

    /** Another process opens the same log and the same result files. */
    constructor Reopen(log: Log, sidecars: map<DeliveryId, Sidecar>, runner: nat)
      requires Legal(log) && forall id | id in sidecars :: Formed(sidecars[id].usage)
      ensures Valid() && this.log == log && this.sidecars == sidecars && this.runner == runner
    {
      this.log, this.sidecars, this.runner := log, sidecars, runner;
    }

    method Append(e: Event)
      requires Legal(log) && Enabled(log, e)
      modifies this`log
      ensures Legal(log) && log == old(log) + [e]
      ensures forall id :: D(id) == DeliveryStep(old(D(id)), id, e)
      ensures forall g :: G(g) == GoalStep(old(G(g)), g, e)
    {
      Appended(log, e);
      log := log + [e];
    }

    /** Appends one possible step of a known delivery. */
    method Do(id: DeliveryId, s: Step)
      requires Legal(log) && D(id).Some? && G(id.goal).Some? && Possible(D(id).value, G(id.goal).value, s)
      modifies this`log
      ensures Legal(log) && log == old(log) + [EventFor(id, old(D(id)).value, s)]
      ensures D(id) == Some(Stepped(old(D(id)).value, s))
      ensures forall other | other != id :: D(other) == old(D(other))
      ensures G(id.goal) == Some(Touched(old(G(id.goal)).value, s))
      ensures forall g | g != id.goal :: G(g) == old(G(g))
    {
      Append(EventFor(id, D(id).value, s));
    }

    // Goals.

    method CreateGoal(goal: nat, title: string, f: Fields, owner: Owner, now: Time) returns (r: Reply)
      requires Valid() && G(goal).None?
      modifies this`log
      ensures Valid()
      ensures var plan := Planned(Plan(None, 0), f, now);
              && r == (if title != "" && plan.Some? && Owned(owner, plan.value.wakeAt, plan.value.every) then Fine else Invalid)
              && log == old(log) + if r.Fine? then [OfGoal(goal, 1, Create(now, plan.value.wakeAt, plan.value.every, owner))] else []
    {
      var plan := Planned(Plan(None, 0), f, now);
      if title == "" || plan.None? || !Owned(owner, plan.value.wakeAt, plan.value.every) {
        return Invalid;
      }
      Append(OfGoal(goal, 1, Create(now, plan.value.wakeAt, plan.value.every, owner)));
      r := Fine;
    }

    /** A change of status, refused when the goal is over, has a newer revision than the caller saw, or
        would be woken without an owner; leaving the active state stores the time it was active. */
    method UpdateGoal(goal: nat, status: GoalStatus, f: Fields, expected: Option<nat>, now: Time) returns (r: Reply)
      requires Valid()
      modifies this`log
      ensures Valid() && (!r.Fine? ==> log == old(log))
      ensures r.NotFound? <==> !status.Stuck? && old(G(goal)).None?
      ensures r.Fine? <==> !status.Stuck? && old(G(goal)).Some? && Updatable(old(G(goal)).value, status, f, expected, now)
      ensures r.Fine? ==>
                var g := old(G(goal)).value;
                log == old(log) + [OfGoal(goal, g.revision + 1,
                                          Updating(g, status, Planned(Plan(g.wakeAt, g.every), f, now).value, now))]
    {
      if status.Stuck? {
        return Invalid;
      }
      if G(goal).None? {
        return NotFound;
      }
      var g := G(goal).value;
      if GoalLog.Over(g.status) && status != g.status {
        return Conflict;
      }
      if expected.Some? && expected.value != g.revision {
        return Conflict;
      }
      var plan := Planned(Plan(g.wakeAt, g.every), f, now);
      if plan.None? {
        return Invalid;
      }
      if !Owned(g.owner, plan.value.wakeAt, plan.value.every) {
        return Conflict;
      }
      var elapsed, lastActive, reset := g.elapsed, g.lastActive, false;
      if g.status.Active? && !status.Active? {
        elapsed, lastActive := Seconds(g, now), None;
      } else if status.Active? && !g.status.Active? {
        lastActive, reset := Some(now), true;
      }
      Append(OfGoal(goal, g.revision + 1, Update(now, status, plan.value.wakeAt, plan.value.every, elapsed, lastActive, reset)));
      r := Fine;
    }

    /** A goal without a chat gets its owner, once. */
    method BindOwner(goal: nat, owner: Owner) returns (r: Reply)
      requires Valid()
      modifies this`log
      ensures Valid()
      ensures r == (if owner.chat == "" then Invalid else if old(G(goal)).None? then NotFound
                    else if old(G(goal)).value.owner.chat !in {"", owner.chat} then Conflict else Fine)
      ensures r.Fine? ==> G(goal).Some? && G(goal).value.owner.chat == owner.chat
      ensures log == old(log) + if r.Fine? && old(G(goal)).value.owner.chat == ""
                                then [OfGoal(goal, old(G(goal)).value.revision + 1, GoalLog.BindOwner(Adopted(old(G(goal)).value.owner, owner)))]
                                else []
    {
      if owner.chat == "" {
        return Invalid;
      }
      if G(goal).None? {
        return NotFound;
      }
      var g := G(goal).value;
      if g.owner.chat != "" {
        return if g.owner.chat == owner.chat then Fine else Conflict;
      }
      Append(OfGoal(goal, g.revision + 1, GoalLog.BindOwner(Adopted(g.owner, owner))));
      r := Fine;
    }

    /** The agent reports that it is stuck: the same reason on three different turns blocks the goal. */
    method ReportStuck(goal: nat, reason: string, turn: string, asked: Owner, now: Time) returns (r: Reply)
      requires Valid()
      modifies this`log
      ensures Valid()
      ensures r == (if reason == "" then Invalid else if old(G(goal)).None? then NotFound
                    else if !Belongs(old(G(goal)).value.owner, asked) || !old(G(goal)).value.status.Active? then Conflict else Fine)
      ensures !r.Fine? || (turn != "" && old(G(goal)).value.blockedTurn == turn) ==> log == old(log)
      ensures r.Fine? && !(turn != "" && old(G(goal)).value.blockedTurn == turn) ==>
                var g := old(G(goal)).value;
                var attempts := if g.blockedReason == reason then g.blockedAttempts + 1 else 1;
                log == old(log) + [OfGoal(goal, g.revision + 1,
                  if attempts >= BLOCK_THRESHOLD then TryBlock(now, Stuck, reason, attempts, turn, Seconds(g, now), None)
                  else TryBlock(now, Active, reason, attempts, turn, g.elapsed, g.lastActive))]
    {
      if reason == "" {
        return Invalid;
      }
      if G(goal).None? {
        return NotFound;
      }
      var g := G(goal).value;
      if !Belongs(g.owner, asked) {
        return Conflict;
      }
      if !g.status.Active? {
        return Conflict;
      }
      r := Fine;
      if turn != "" && g.blockedTurn == turn {
        return;
      }
      var attempts := if g.blockedReason == reason then g.blockedAttempts + 1 else 1;
      var status, elapsed, lastActive := Active, g.elapsed, g.lastActive;
      if attempts >= BLOCK_THRESHOLD {
        status, elapsed, lastActive := Stuck, Seconds(g, now), None;
      }
      Append(OfGoal(goal, g.revision + 1, TryBlock(now, status, reason, attempts, turn, elapsed, lastActive)));
    }

    /** The agent reports that the goal is reached: an update that nothing can refuse any more. */
    method ReportDone(goal: nat, reason: string, asked: Owner, now: Time) returns (r: Reply)
      requires Valid()
      modifies this`log
      ensures Valid() && (!r.Fine? ==> log == old(log))
      ensures r == (if reason == "" then Invalid else if old(G(goal)).None? then NotFound
                    else if !Belongs(old(G(goal)).value.owner, asked) || !old(G(goal)).value.status.Active? then Conflict else Fine)
      ensures r.Fine? ==> G(goal).Some? && G(goal).value.status.Finished? && G(goal).value.lastActive.None?
      ensures r.Fine? ==>
                var g := old(G(goal)).value;
                log == old(log) + [OfGoal(goal, g.revision + 1, Updating(g, Finished, Plan(g.wakeAt, g.every), now))]
    {
      if reason == "" {
        return Invalid;
      }
      if G(goal).None? {
        return NotFound;
      }
      var g := G(goal).value;
      if !Belongs(g.owner, asked) || !g.status.Active? {
        return Conflict;
      }
      OwnedWhenScheduled(log, goal);
      Appended(log, OfGoal(goal, g.revision + 1, Updating(g, Finished, Plan(g.wakeAt, g.every), now)));
      r := UpdateGoal(goal, Finished, Fields(None, None), None, now);
    }

    // Starting and running an occurrence.

    /** A result written before the host died completes its delivery. */
    method RecoverIfNeeded(id: DeliveryId)
      requires Valid() && D(id).Some?
      modifies this`log
      ensures Valid()
      ensures var d, g := old(D(id)).value, old(G(id.goal));
              log == old(log) + if Recoverable(d) && id in sidecars && g.Some?
                                then [EventFor(id, d, Recovery(d, g.value, sidecars[id]))] else []
      ensures !(Recoverable(old(D(id)).value) && id in sidecars) ==> log == old(log)
      ensures Recoverable(old(D(id)).value) && id in sidecars ==>
                old(G(id.goal)).Some? && D(id).Some?
                && HasCompleted(old(D(id)).value, old(G(id.goal)).value.every, D(id).value, sidecars[id].at, true)
                && G(id.goal).Some? && G(id.goal).value.wakeAt == Later(old(G(id.goal)).value.every, sidecars[id].at)
                && G(id.goal).value.wakeCount == old(G(id.goal)).value.wakeCount + 1
      ensures forall other | other != id :: D(other) == old(D(other))
    {
      GoalKnown(log, id);
      var d := D(id).value;
      if Recoverable(d) && id in sidecars {
        ReceiptForPossible(d, sidecars[id].usage);
        RecoveryIs(d, G(id.goal).value, sidecars[id]);
        Do(id, Recovery(d, G(id.goal).value, sidecars[id]));
      }
    }

    /** Wakes a due goal: a new occurrence is added and claimed, an old one recovered or, when its
        retry may start, claimed again; anything else is left alone. */
    method Wake(goal: nat, asked: Owner, now: Time, stagger: int) returns (r: Reply)
      requires Valid()
      modifies this`log
      ensures Valid()
      ensures !r.Invalid? && (r.NotFound? <==> old(G(goal)).None?)
      ensures old(G(goal)).Some? && !(Belongs(old(G(goal)).value.owner, asked) && Due(old(G(goal)).value, now, stagger)) ==> r.Conflict?
      ensures !r.Fine? ==> log == old(log)
      ensures r.Fine? ==>
                var id := DeliveryId(goal, old(G(goal)).value.wakeAt.value);
                var d, deadline := old(D(id)), Deadline(now, Phase.Wake);
                log == old(log)
                + if d.None? then
                    [OfDelivery(id, 1, Add(deadline, runner, old(G(goal)).value.owner)), OfDelivery(id, 2, Claim(deadline, runner, 1))]
                  else if Recoverable(d.value) && id in sidecars then
                    [EventFor(id, d.value, Recovery(d.value, old(G(goal)).value, sidecars[id]))]
                  else if Reclaims(d.value, d.value.attempt + if d.value.consumeRetry then 1 else 0) then
                    [EventFor(id, d.value, Claim(deadline, runner, d.value.attempt + if d.value.consumeRetry then 1 else 0))]
                  else []
      // said of the records alone
      ensures r.Fine? ==> Wakeable(old(G(goal)).value, now) && D(DeliveryId(goal, old(G(goal)).value.wakeAt.value)).Some?
      ensures r.Fine? ==>
                var id := DeliveryId(goal, old(G(goal)).value.wakeAt.value);
                var e := D(id).value;
                if old(D(id)).None? then HasClaimed(e, 1, runner, now) && e.owner == old(G(goal)).value.owner
                else Woken(old(D(id)).value, old(G(goal)).value.every, Side(id), e, runner, now)
      ensures r.Conflict? && Belongs(old(G(goal)).value.owner, asked) && Wakeable(old(G(goal)).value, now - MAX_STAGGER * SECOND) ==>
                var id := DeliveryId(goal, old(G(goal)).value.wakeAt.value);
                var d := old(D(id));
                d.Some? && !IsTerminal(d.value) && d.value.retryAt.Some? && d.value.retryAt.value > now
      ensures r.Conflict? && Belongs(old(G(goal)).value.owner, asked) && Due(old(G(goal)).value, now, stagger) ==>
                var id := DeliveryId(goal, old(G(goal)).value.wakeAt.value);
                var d := old(D(id));
                d.Some? && !IsTerminal(d.value) && d.value.retryAt.Some? && d.value.retryAt.value > now
    {
      if G(goal).None? {
        return NotFound;
      }
      if !Belongs(G(goal).value.owner, asked) {
        return Conflict;
      }
      if !Due(G(goal).value, now, stagger) {
        return Conflict;
      }
      var id := DeliveryId(goal, G(goal).value.wakeAt.value);
      if D(id).None? {
        Append(OfDelivery(id, 1, Add(Deadline(now, Phase.Wake), runner, G(goal).value.owner)));
        Do(id, Claim(Deadline(now, Phase.Wake), runner, 1));
        return Fine;
      }
      r := WakeAgain(id, now);
    }

    method WakeAgain(id: DeliveryId, now: Time) returns (r: Reply)
      requires Valid() && D(id).Some? && G(id.goal).Some?
      modifies this`log
      ensures Valid() && (r.Fine? || r.Conflict?)
      ensures r.Fine? ==> D(id).Some? && Woken(old(D(id)).value, old(G(id.goal)).value.every, Side(id), D(id).value, runner, now)
      ensures r.Conflict? ==> log == old(log) && !IsTerminal(old(D(id)).value)
                              && old(D(id)).value.retryAt.Some? && old(D(id)).value.retryAt.value > now
      ensures r.Fine? ==>
                var d := old(D(id)).value;
                var attempt := d.attempt + if d.consumeRetry then 1 else 0;
                log == old(log)
                + if Recoverable(d) && id in sidecars then [EventFor(id, d, Recovery(d, old(G(id.goal)).value, sidecars[id]))]
                  else if Reclaims(d, attempt) then [EventFor(id, d, Claim(Deadline(now, Phase.Wake), runner, attempt))]
                  else []
    {
      RecoverIfNeeded(id);
      var d := D(id).value;
      if IsTerminal(d) {
        return Fine;
      }
      if d.status.Failed? || d.status.Interrupted? || d.status.Skipped? {
        if d.retryAt.Some? && d.retryAt.value > now {
          return Conflict;
        }
        var attempt := d.attempt + if d.consumeRetry then 1 else 0;
        if attempt > MAX_ATTEMPTS {
          return Fine;
        }
        GoalKnown(log, id);
        ClaimIs(d, attempt, runner, now);
        Do(id, Claim(Deadline(now, Phase.Wake), runner, attempt));
      }
      r := Fine;
    }

    /** Starts a delivery, or answers with the result it already has; a completed delivery whose result
        is gone is closed as failed and not run again.  A turn id names the delivery it is for. */
    method BeginDelivery(id: DeliveryId, turn: Option<DeliveryId>) returns (r: Reply)
      requires Valid()
      modifies this`log
      ensures Valid()
      ensures r.NotFound? <==> old(D(id)).None?
      ensures r.NotFound? ==> log == old(log)
      ensures old(D(id)).Some? ==>
                var d, g := old(D(id)).value, old(G(id.goal));
                && (r.Fine? <==> (Recoverable(d) && id in sidecars) || (d.status.Completed? && id in sidecars)
                                 || (!IsTerminal(d) && MeantFor(turn, id) && Startable(d)))
                && log == old(log)
                  + if g.None? then []
                    else if Recoverable(d) && id in sidecars then [EventFor(id, d, Recovery(d, g.value, sidecars[id]))]
                    else if d.status.Completed? && id !in sidecars then [EventFor(id, d, Corrupt)]
                    else if !IsTerminal(d) && MeantFor(turn, id) && Startable(d) then [EventFor(id, d, Begin(runner))]
                    else []
    {
      if D(id).None? {
        return NotFound;
      }
      GoalKnown(log, id);
      RecoverIfNeeded(id);
      GoalKnown(log, id);
      var d := D(id).value;
      if IsTerminal(d) {
        if d.status.Completed? && id !in sidecars {
          Do(id, Corrupt);
          return Conflict;
        }
        return if d.status.Completed? then Fine else Conflict;
      }
      if !MeantFor(turn, id) {
        return Conflict;
      }
      if !Startable(d) {
        return Conflict;
      }
      Do(id, Begin(runner));
      r := Fine;
    }

    method MarkPhase(id: DeliveryId, phase: Phase, deadline: Time) returns (r: Reply)
      requires Valid()
      modifies this`log
      ensures Valid() && (r.NotFound? <==> old(D(id)).None?)
      ensures var d := old(D(id));
              log == old(log) + if d.None? || IsTerminal(d.value) || d.value.status.Draining? then []
                                else [EventFor(id, d.value, SetPhase(phase, deadline))]
    {
      if D(id).None? {
        return NotFound;
      }
      GoalKnown(log, id);
      var d := D(id).value;
      if !IsTerminal(d) && !d.status.Draining? {
        Do(id, SetPhase(phase, deadline));
      }
      r := Fine;
    }

    // Ending an occurrence.

    /** Appends the step that ends an occurrence, and gives the goal its schedule back if it was a continuation. */
    method End(id: DeliveryId, s: Step)
      requires Valid() && D(id).Some? && G(id.goal).Some? && Possible(D(id).value, G(id.goal).value, s) && Ending(s)
      modifies this`log
      ensures Valid()
      ensures log == old(log) + [EventFor(id, old(D(id)).value, s)] + Closing(old(D(id)).value, old(G(id.goal)).value, s, id)
      ensures D(id) == Some(Stepped(old(D(id)).value, s)) && forall other | other != id :: D(other) == old(D(other))
      ensures G(id.goal).Some? && G(id.goal).value.every == old(G(id.goal)).value.every
      ensures (old(D(id)).value.continuation ==> AdvanceOf(s).Stays?) ==>
                Handed(old(G(id.goal)).value, G(id.goal).value, old(D(id)).value, D(id).value)
      ensures forall g | g != id.goal :: G(g) == old(G(g))
    {
      hide Possible, Applied, Touched, Handed;
      ghost var d, g := D(id).value, G(id.goal).value;
      Do(id, s);
      EndingKeeps(d, g, s);
      if d.continuation ==> AdvanceOf(s).Stays? {
        EndingHands(d, g, s);
      }
      if D(id).value.continuation {
        GoalKnown(log, id);
        Append(OfGoal(id.goal, G(id.goal).value.revision + 1, CloseContinuation(D(id).value.nextWakeAt)));
      }
    }

    /** Replaces the result file of a delivery as a whole. */
    method WriteResult(id: DeliveryId, response: Usage, at: Time)
      requires Valid() && Formed(response)
      modifies this`sidecars
      ensures Valid() && sidecars == old(sidecars)[id := Sidecar(at, response)]
    {
      sidecars := sidecars[id := Sidecar(at, response)];
    }

    /** The result is made durable before the event that says so. */
    method CompleteLocked(id: DeliveryId, response: Usage, context: Option<Usage>, at: Time)
      requires Valid() && D(id).Some? && Formed(response) && (context.Some? ==> Formed(context.value))
      requires Completable(D(id).value)
      modifies this
      ensures Valid() && sidecars == old(sidecars)[id := Sidecar(at, response)]
      ensures old(G(id.goal)).Some? && D(id).Some? && G(id.goal).Some?
      ensures HasCompleted(old(D(id)).value, old(G(id.goal)).value.every, D(id).value, at, !Already(old(D(id)).value))
      ensures Handed(old(G(id.goal)).value, G(id.goal).value, old(D(id)).value, D(id).value)
      ensures forall g | g != id.goal :: G(g) == old(G(g))
      ensures D(id).value.approval == old(D(id)).value.approval
      ensures forall other | other != id :: D(other) == old(D(other))
      ensures var d, g := old(D(id)).value, old(G(id.goal)).value;
              var s := Completion(d, g, at, if context.Some? then context.value else response);
              log == old(log) + [EventFor(id, d, s)] + Closing(d, g, s, id)
    {
      hide Possible, Applied, Touched, HasCompleted, Handed;
      GoalKnown(log, id);
      WriteResult(id, response, at);
      var usage := if context.Some? then context.value else response;
      CompletionIs(D(id).value, G(id.goal).value, at, usage);
      CompletionPossible(D(id).value, G(id.goal).value, at, usage);
      End(id, Completion(D(id).value, G(id.goal).value, at, usage));
    }

    method CompleteDelivery(id: DeliveryId, response: Usage, context: Option<Usage>, at: Time) returns (r: Reply)
      requires Valid() && Formed(response) && (context.Some? ==> Formed(context.value))
      modifies this
      ensures Valid() && (r.NotFound? <==> old(D(id)).None?)
      ensures r.Conflict? <==> old(D(id)).Some? && Recoverable(old(D(id)).value) && id !in old(sidecars)
                               && !old(D(id)).value.status.Running?
      ensures old(D(id)).Some? && old(G(id.goal)).Some? ==>
                var d, g := old(D(id)).value, old(G(id.goal)).value;
                var s := Completion(d, g, at, if context.Some? then context.value else response);
                if !Recoverable(d) then log == old(log) && sidecars == old(sidecars)
                else if id in old(sidecars) then
                  log == old(log) + [EventFor(id, d, Recovery(d, g, old(sidecars)[id]))] && sidecars == old(sidecars)
                else if !d.status.Running? then log == old(log) && sidecars == old(sidecars)
                else log == old(log) + [EventFor(id, d, s)] + Closing(d, g, s, id)
                     && sidecars == old(sidecars)[id := Sidecar(at, response)]
      // said of the records alone
      ensures old(D(id)).Some? && Recoverable(old(D(id)).value) && (id in old(sidecars) || old(D(id)).value.status.Running?) ==>
                var d, g := old(D(id)).value, old(G(id.goal));
                && g.Some? && D(id).Some? && G(id.goal).Some?
                && if id in old(sidecars) then HasCompleted(d, g.value.every, D(id).value, old(sidecars)[id].at, true)
                   else HasCompleted(d, g.value.every, D(id).value, at, !Already(d)) && Handed(g.value, G(id.goal).value, d, D(id).value)
    {
      hide HasCompleted, Handed;
      if D(id).None? {
        return NotFound;
      }
      GoalKnown(log, id);
      RecoverIfNeeded(id);
      var d := D(id).value;
      if IsTerminal(d) || d.status.Draining? || d.status.Applying? {
        return Fine;
      }
      if !d.status.Running? {
        return Conflict;
      }
      CompleteLocked(id, response, context, at);
      r := Fine;
    }

    /** `fromBlocked` lets a failed decision close an occurrence that waits for it. */
    method FailLocked(id: DeliveryId, retryable: bool, now: Time, usage: Usage, fromBlocked: bool)
      requires Valid() && D(id).Some? && Formed(usage)
      requires fromBlocked ==> D(id).value.status.Blocked? && !retryable
      modifies this`log
      ensures Valid() && old(G(id.goal)).Some?
      ensures var d, g := old(D(id)).value, old(G(id.goal)).value;
              var s := Failing(d, g, retryable, now, usage);
              if (IsTerminal(d) && !fromBlocked) || d.status.Failed? then log == old(log) && D(id) == old(D(id))
              else
                && log == old(log) + [EventFor(id, d, s)] + (if s.terminal then Closing(d, g, s, id) else [])
                && D(id) == Some(Stepped(d, s)) && HasFailed(d, g.every, D(id).value, retryable, now)
                && G(id.goal).Some? && (D(id).value.terminal ==> Handed(g, G(id.goal).value, d, D(id).value))
                && (!D(id).value.terminal ==> G(id.goal).value.(usage := g.usage) == g)
      ensures forall other | other != id :: D(other) == old(D(other))
      ensures G(id.goal).Some? && G(id.goal).value.every == old(G(id.goal)).value.every
      ensures forall g | g != id.goal :: G(g) == old(G(g))
    {
      GoalKnown(log, id);
      var d, g := D(id).value, G(id.goal).value;
      if (IsTerminal(d) && !fromBlocked) || d.status.Failed? {
        return;
      }
      hide Handed, HasFailed;
      ReceiptForPossible(d, usage);
      var s := Failing(d, g, retryable, now, usage);
      FailureIs(d, g, retryable, now, usage);
      if s.terminal {
        End(id, s);
      } else {
        Do(id, s);
      }
    }

    method FailDelivery(id: DeliveryId, retryable: bool, now: Time, usage: Usage) returns (r: Reply)
      requires Valid() && Formed(usage)
      modifies this`log
      ensures Valid() && (r.NotFound? <==> old(D(id)).None?) && (r.NotFound? ==> log == old(log))
      ensures old(D(id)).Some? && old(G(id.goal)).Some? ==>
                var d, g := old(D(id)).value, old(G(id.goal)).value;
                var s := Failing(d, g, retryable, now, usage);
                log == old(log) + if IsTerminal(d) || d.status.Failed? then []
                                  else [EventFor(id, d, s)] + if s.terminal then Closing(d, g, s, id) else []
    {
      if D(id).None? {
        return NotFound;
      }
      FailLocked(id, retryable, now, usage, false);
      r := Fine;
    }

    /** The provider could not be reached: the occurrence waits without using a retry. */
    method Skip(id: DeliveryId, now: Time, rearm: int) returns (r: Reply)
      requires Valid()
      modifies this`log
      ensures Valid() && (r.NotFound? <==> old(D(id)).None?)
      ensures var d := old(D(id));
              log == old(log) + if d.None? || IsTerminal(d.value) || (d.value.status.Skipped? && d.value.retryAt.Some?) then []
                                else [EventFor(id, d.value, GoalLog.Skip(now + Rearm(rearm, REARM_SECONDS) * SECOND))]
    {
      if D(id).None? {
        return NotFound;
      }
      GoalKnown(log, id);
      var d := D(id).value;
      if !IsTerminal(d) && !(d.status.Skipped? && d.retryAt.Some?) {
        Do(id, GoalLog.Skip(now + Rearm(rearm, REARM_SECONDS) * SECOND));
      }
      r := Fine;
    }

    /** There is no free lane: a claimed occurrence goes back without using a retry. */
    method Defer(id: DeliveryId, now: Time, rearm: int, expected: Option<nat>) returns (r: Reply)
      requires Valid()
      modifies this`log
      ensures Valid() && (r.NotFound? <==> old(D(id)).None?)
      ensures log == old(log) + if old(D(id)).None? || !Deferrable(old(D(id)).value, expected) then []
                                else [EventFor(id, old(D(id)).value, GoalLog.Defer(now + Rearm(rearm, DEFER_SECONDS) * SECOND))]
    {
      if D(id).None? {
        return NotFound;
      }
      GoalKnown(log, id);
      if Deferrable(D(id).value, expected) {
        Do(id, GoalLog.Defer(now + Rearm(rearm, DEFER_SECONDS) * SECOND));
      }
      r := Fine;
    }

    /** A worker ran out of time: until it has ended nothing else may run this occurrence. */
    method Drain(id: DeliveryId, phase: Phase) returns (r: Reply)
      requires Valid()
      modifies this`log
      ensures Valid() && (r.NotFound? <==> old(D(id)).None?)
      ensures old(D(id)).Some? && !IsTerminal(old(D(id)).value) ==>
                D(id).Some? && D(id).value.status.Draining? && !IsTerminal(D(id).value)
      ensures forall other | other != id :: D(other) == old(D(other))
      ensures var d := old(D(id));
              log == old(log) + if d.None? || IsTerminal(d.value) || d.value.status.Draining? then []
                                else [EventFor(id, d.value, GoalLog.Drain(phase))]
    {
      if D(id).None? {
        return NotFound;
      }
      GoalKnown(log, id);
      if !IsTerminal(D(id).value) && !D(id).value.status.Draining? {
        Do(id, GoalLog.Drain(phase));
      }
      r := Fine;
    }

    method FinishDrain(id: DeliveryId, retryable: bool, now: Time) returns (r: Reply)
      requires Valid()
      modifies this`log
      ensures Valid() && !r.Invalid? && (r.NotFound? <==> old(D(id)).None?)
      ensures r.Conflict? <==> old(D(id)).Some? && !old(D(id)).value.status.Draining?
                               && !IsTerminal(old(D(id)).value) && !old(D(id)).value.status.Failed?
      ensures !r.Fine? ==> log == old(log)
      ensures r.Fine? ==>
                && old(G(id.goal)).Some?
                && D(id) == (if old(D(id)).value.status.Draining? && !IsTerminal(old(D(id)).value)
                             then Some(Stepped(old(D(id)).value, Failing(old(D(id)).value, old(G(id.goal)).value, retryable, now, NO_USAGE)))
                             else old(D(id)))
      ensures forall other | other != id :: D(other) == old(D(other))
      ensures forall g | old(G(g)).Some? :: G(g).Some? && G(g).value.every == old(G(g)).value.every
      ensures SameEvery(old(log), log)
      ensures r.Fine? && old(G(id.goal)).Some? ==>
                var d, g := old(D(id)).value, old(G(id.goal)).value;
                var s := Failing(d, g, retryable, now, NO_USAGE);
                log == old(log) + if !d.status.Draining? || IsTerminal(d) then []
                                  else [EventFor(id, d, s)] + if s.terminal then Closing(d, g, s, id) else []
    {
      if D(id).None? {
        return NotFound;
      }
      GoalKnown(log, id);
      var d := D(id).value;
      if !d.status.Draining? {
        return if IsTerminal(d) || d.status.Failed? then Fine else Conflict;
      }
      ghost var before := log;
      FailLocked(id, retryable, now, NO_USAGE, false);
      forall g: nat ensures EveryOf(log, g) == EveryOf(before, g) {
        assert G(g) == GoalOf(log, g);
      }
      r := Fine;
    }

    /** The occurrence waits for a decision or an answer and keeps its place in the schedule. */
    method Block(id: DeliveryId, kind: Kind, reference: nat, now: Time, usage: Usage) returns (r: Reply)
      requires Valid() && Formed(usage)
      modifies this`log
      ensures Valid() && (r.NotFound? <==> old(D(id)).None?)
      ensures var d := old(D(id));
              log == old(log) + if d.None? || IsTerminal(d.value) || d.value.status.Draining? then []
                                else [EventFor(id, d.value, Blocking(d.value, kind, reference, now, usage))]
    {
      if D(id).None? {
        return NotFound;
      }
      GoalKnown(log, id);
      var d := D(id).value;
      if !IsTerminal(d) && !d.status.Draining? {
        ReceiptForPossible(d, usage);
        Do(id, Blocking(d, kind, reference, now, usage));
      }
      r := Fine;
    }

    method Deny(id: DeliveryId, reference: Option<nat>, now: Time, usage: Usage) returns (r: Reply)
      requires Valid() && Formed(usage)
      modifies this`log
      ensures Valid() && (r.Fine? || r.NotFound?) && (r.NotFound? <==> old(D(id)).None?) && (r.NotFound? ==> log == old(log))
      ensures old(D(id)).Some? && old(G(id.goal)).Some? ==>
                var d, g := old(D(id)).value, old(G(id.goal)).value;
                var s := Denial(d, g, reference, now, usage);
                if !Deniable(d) then log == old(log) && D(id) == old(D(id))
                else log == old(log) + [EventFor(id, d, s)] + Closing(d, g, s, id) && D(id) == Some(Stepped(d, s))
                     && D(id).value.status.Denied? && HasClosed(d, g.every, D(id).value, now)
                     && G(id.goal).Some? && Handed(g, G(id.goal).value, d, D(id).value)
      ensures forall other | other != id :: D(other) == old(D(other))
      ensures forall g | g != id.goal :: G(g) == old(G(g))
    {
      if D(id).None? {
        return NotFound;
      }
      GoalKnown(log, id);
      var d := D(id).value;
      if Deniable(d) {
        hide HasClosed, Handed;
        ReceiptForPossible(d, usage);
        DenialIs(d, G(id.goal).value, reference, now, usage);
        End(id, Denial(d, G(id.goal).value, reference, now, usage));
      }
      r := Fine;
    }

    method Park(id: DeliveryId, now: Time, usage: Usage) returns (r: Reply)
      requires Valid() && Formed(usage)
      modifies this`log
      ensures Valid() && (r.NotFound? <==> old(D(id)).None?) && (r.NotFound? ==> log == old(log))
      ensures old(D(id)).Some? && old(G(id.goal)).Some? ==>
                var d, g := old(D(id)).value, old(G(id.goal)).value;
                var s := GoalLog.Park(now, Ends(d, g, now), ReceiptFor(d, usage));
                && log == old(log) + (if IsTerminal(d) then [] else [EventFor(id, d, s)] + Closing(d, g, s, id))
                && (!IsTerminal(d) ==>
                      && D(id).Some? && D(id).value.status.Parked? && HasClosed(d, g.every, D(id).value, now)
                      && G(id.goal).Some? && Handed(g, G(id.goal).value, d, D(id).value))
    {
      if D(id).None? {
        return NotFound;
      }
      GoalKnown(log, id);
      var d := D(id).value;
      if !IsTerminal(d) {
        hide HasClosed, Handed;
        ReceiptForPossible(d, usage);
        ParkIs(d, G(id.goal).value, now, usage);
        End(id, GoalLog.Park(now, Ends(d, G(id.goal).value, now), ReceiptFor(d, usage)));
      }
      r := Fine;
    }

    /** A result is shown once, in the chat of its owner. */
    method MarkMaterialized(id: DeliveryId, chat: string, expected: Option<nat>) returns (r: Reply)
      requires Valid()
      modifies this`log
      ensures Valid() && (r.NotFound? <==> old(D(id)).None?)
      ensures var d := old(D(id));
              && (r.Fine? <==> d.Some? && (d.value.status.Materialized?
                                           || (d.value.status.Completed? && chat == d.value.owner.chat
                                               && (expected.None? || expected.value == d.value.revision))))
              && log == old(log) + if r.Fine? && d.value.status.Completed? then [EventFor(id, d.value, Materialize)] else []
    {
      if D(id).None? {
        return NotFound;
      }
      GoalKnown(log, id);
      var d := D(id).value;
      if d.status.Materialized? {
        return Fine;
      }
      if !d.status.Completed? || chat != d.owner.chat || (expected.Some? && expected.value != d.revision) {
        return Conflict;
      }
      Do(id, Materialize);
      r := Fine;
    }

    // Decisions and answers.

    /** The delivery that waits for `reference`: the one touched last, when several name it. */
    method Find(kind: Kind, reference: nat) returns (r: Option<DeliveryId>)
      ensures r == Waiting(log, log, kind, reference)
    {
      var i: nat := |log|;
      assert log[..i] == log;
      while i > 0
        invariant i <= |log|
        invariant Waiting(log, log, kind, reference) == Waiting(log[..i], log, kind, reference)
      {
        i := i - 1;
        assert log[..i + 1][..i] == log[..i];
        if log[i].OfDelivery? && Names(log, log[i].id, kind, reference) {
          return Some(log[i].id);
        }
      }
      r := None;
    }

    method MarkApprovalPhase(reference: nat, phase: Phase, deadline: Time) returns (r: Reply)
      requires Valid()
      modifies this`log
      ensures Valid() && (r.NotFound? <==> Waiting(old(log), old(log), Approval, reference).None?)
      ensures var found := Waiting(old(log), old(log), Approval, reference);
              log == old(log) + if found.None? || !Approvable(DeliveryOf(old(log), found.value).value) then []
                                else [EventFor(found.value, DeliveryOf(old(log), found.value).value, SetApprovalPhase(phase, deadline))]
    {
      var found := Find(Approval, reference);
      if found.None? {
        return NotFound;
      }
      GoalKnown(log, found.value);
      if Approvable(D(found.value).value) {
        Do(found.value, SetApprovalPhase(phase, deadline));
      }
      r := Fine;
    }

    /** An approved action that could not start waits for its decision again. */
    method RestoreApprovalWait(reference: nat) returns (r: Reply)
      requires Valid()
      modifies this`log
      ensures Valid() && (r.NotFound? <==> Waiting(old(log), old(log), Approval, reference).None?)
      ensures var found := Waiting(old(log), old(log), Approval, reference);
              log == old(log) + if found.None? || !DeliveryOf(old(log), found.value).value.status.Applying? then []
                                else [EventFor(found.value, DeliveryOf(old(log), found.value).value, RestoreWait)]
    {
      var found := Find(Approval, reference);
      if found.None? {
        return NotFound;
      }
      GoalKnown(log, found.value);
      if D(found.value).value.status.Applying? {
        Do(found.value, RestoreWait);
      }
      r := Fine;
    }

    method DenyByApproval(reference: nat, now: Time) returns (r: Reply)
      requires Valid()
      modifies this`log
      ensures Valid() && (r.NotFound? <==> Waiting(old(log), old(log), Approval, reference).None?)
      ensures r.NotFound? ==> log == old(log)
      ensures r.Fine? || r.NotFound?
      ensures var found := Waiting(old(log), old(log), Approval, reference);
              found.Some? && GoalOf(old(log), found.value.goal).Some? ==>
                var d, g := DeliveryOf(old(log), found.value).value, GoalOf(old(log), found.value.goal).value;
                var s := Denial(d, g, Some(reference), now, NO_USAGE);
                if !Deniable(d) then log == old(log)
                else log == old(log) + [EventFor(found.value, d, s)] + Closing(d, g, s, found.value)
                     && D(found.value).Some? && D(found.value).value.status.Denied? && D(found.value).value.approval == Some(reference)
                     && HasClosed(d, g.every, D(found.value).value, now)
      ensures forall id | Waiting(old(log), old(log), Approval, reference) != Some(id) :: D(id) == old(D(id))
      ensures SameEvery(old(log), log)
    {
      var found := Find(Approval, reference);
      if found.None? {
        return NotFound;
      }
      ghost var before := log;
      GoalKnown(log, found.value);
      r := Deny(found.value, Some(reference), now, NO_USAGE);
      forall g: nat ensures EveryOf(log, g) == EveryOf(before, g) {
        assert G(g) == GoalOf(log, g);
      }
    }

    /** The outcome of an approved action closes the occurrence that waited for it. */
    method Settle(id: DeliveryId, ok: bool, response: Usage, context: Usage, now: Time)
      requires Valid() && Formed(response) && Formed(context)
      requires D(id).Some? && Resolvable(D(id).value)
      modifies this
      ensures Valid() && old(G(id.goal)).Some? && D(id).Some? && Closed(D(id).value)
      ensures D(id).value.approval == old(D(id)).value.approval
      ensures forall other | other != id :: D(other) == old(D(other))
      ensures sidecars == if ok then old(sidecars)[id := Sidecar(now, response)] else old(sidecars)
      ensures if ok then HasCompleted(old(D(id)).value, old(G(id.goal)).value.every, D(id).value, now, !Already(old(D(id)).value))
              else HasFailed(old(D(id)).value, old(G(id.goal)).value.every, D(id).value, false, now)
      ensures G(id.goal).Some? && Handed(old(G(id.goal)).value, G(id.goal).value, old(D(id)).value, D(id).value)
      ensures forall g | g != id.goal :: G(g) == old(G(g))
      ensures var d, g := old(D(id)).value, old(G(id.goal)).value;
              var s := if ok then Completion(d, g, now, context) else Failing(d, g, false, now, context);
              log == old(log) + [EventFor(id, d, s)] + Closing(d, g, s, id)
    {
      FlagFollows(log, id);
      GoalKnown(log, id);
      FailedForGood(D(id).value, G(id.goal).value, now, context);
      hide Applied, Touched, Possible, GoalLog.IsTerminal;
      if ok {
        CompleteLocked(id, response, Some(context), now);
      } else {
        FailLocked(id, false, now, context, D(id).value.status.Blocked?);
      }
    }

    /** A decision was carried out, or failed to be; an occurrence that has moved on refuses it. */
    method ResolveApproval(reference: nat, ok: bool, response: Usage, context: Option<Usage>, now: Time) returns (r: Reply)
      requires Valid() && Formed(response) && (context.Some? ==> Formed(context.value))
      modifies this
      ensures Valid()
      ensures var found := Waiting(old(log), old(log), Approval, reference);
              && r == (if found.None? then NotFound
                       else if MovedOn(DeliveryOf(old(log), found.value).value) then Conflict else Fine)
              && (if found.Some? && Resolvable(DeliveryOf(old(log), found.value).value)
                  then D(found.value).Some? && Closed(D(found.value).value) && D(found.value).value.approval == Some(reference)
                       && old(G(found.value.goal)).Some?
                       && Carries(old(D(found.value)).value, old(G(found.value.goal)).value.every, D(found.value).value, ok, now)
                       && sidecars == (if ok then old(sidecars)[found.value := Sidecar(now, response)] else old(sidecars))
                       && SameEvery(old(log), log)
                       && forall other | other != found.value :: D(other) == old(D(other))
                  else log == old(log) && sidecars == old(sidecars))
      ensures var found := Waiting(old(log), old(log), Approval, reference);
              found.Some? && Resolvable(DeliveryOf(old(log), found.value).value) ==>
                && GoalOf(old(log), found.value.goal).Some?
                && var d, g := DeliveryOf(old(log), found.value).value, GoalOf(old(log), found.value.goal).value;
                   var usage := if context.Some? then context.value else NO_USAGE;
                   var s := if ok then Completion(d, g, now, usage) else Failing(d, g, false, now, usage);
                   log == old(log) + [EventFor(found.value, d, s)] + Closing(d, g, s, found.value)
    {
      var found := Find(Approval, reference);
      if found.None? {
        return NotFound;
      }
      var d := D(found.value).value;
      if Ended(d) || d.status.Draining? {
        return Fine;
      }
      if !Resolvable(d) {
        return Conflict;
      }
      ghost var before := log;
      Settle(found.value, ok, response, if context.Some? then context.value else NO_USAGE, now);
      forall g: nat ensures EveryOf(log, g) == EveryOf(before, g) {
        assert G(g) == GoalOf(log, g);
      }
      r := Fine;
    }

    /** An answer makes the occurrence retryable; if it had advanced the schedule, the goal is due again for it. */
    method ResolveQuestion(question: nat, prompt: string) returns (r: Reply)
      requires Valid()
      modifies this`log
      ensures Valid()
      ensures var found := Waiting(old(log), old(log), Question, question);
              if found.None? then r.NotFound? && log == old(log)
              else
                var d := DeliveryOf(old(log), found.value).value;
                if d.answered then r.Fine? && log == old(log)
                else if !Answerable(d) then r.Conflict? && log == old(log)
                else if prompt == "" then r.Invalid? && log == old(log)
                else
                  && r.Fine? && GoalOf(old(log), found.value.goal).Some?
                  && log == old(log) + [EventFor(found.value, d, Answer(Already(d)))]
                            + (if !Already(d) then []
                               else [OfGoal(found.value.goal, GoalOf(old(log), found.value.goal).value.revision + 1,
                                            ScheduleContinuation(Some(found.value.scheduledFor)))])
                  && D(found.value).Some? && IsInterrupted(d, D(found.value).value, None, false) && D(found.value).value.answered
                  && D(found.value).value.continuation == Already(d) && G(found.value.goal).Some?
                  && G(found.value.goal).value.wakeAt
                     == (if Already(d) then Some(found.value.scheduledFor) else old(G(found.value.goal)).value.wakeAt)
    {
      var found := Find(Question, question);
      if found.None? {
        return NotFound;
      }
      var id := found.value;
      var d := D(id).value;
      if d.answered {
        return Fine;
      }
      if !Answerable(d) {
        return Conflict;
      }
      if prompt == "" {
        return Invalid;
      }
      GoOn(id);
      r := Fine;
    }

    /** The answered occurrence goes on, and its goal is due again for it if the schedule had moved on. */
    method GoOn(id: DeliveryId)
      requires Valid() && D(id).Some? && Answerable(D(id).value) && !D(id).value.answered
      modifies this`log
      ensures Valid() && old(G(id.goal)).Some? && D(id).Some? && G(id.goal).Some?
      ensures var d, g := old(D(id)).value, old(G(id.goal)).value;
              && log == old(log) + [EventFor(id, d, Answer(Already(d)))]
                        + (if !Already(d) then []
                           else [OfGoal(id.goal, g.revision + 1, ScheduleContinuation(Some(id.scheduledFor)))])
              && IsInterrupted(d, D(id).value, None, false) && D(id).value.answered && D(id).value.continuation == Already(d)
              && G(id.goal).value.wakeAt == if Already(d) then Some(id.scheduledFor) else g.wakeAt
    {
      GoalKnown(log, id);
      hide Stepped, Applied, Touched, IsInterrupted;
      var d := D(id).value;
      AnswerIs(d, G(id.goal).value, Already(d));
      Do(id, Answer(Already(d)));
      GoalKnown(log, id);
      if Already(d) {
        Append(OfGoal(id.goal, G(id.goal).value.revision + 1, ScheduleContinuation(Some(id.scheduledFor))));
      }
    }

    /** A failure of which only the outcome matters to the caller. */
    method FailNow(id: DeliveryId, retryable: bool, now: Time, fromBlocked: bool)
      requires Valid() && D(id).Some? && !D(id).value.status.Failed?
      requires if fromBlocked then D(id).value.status.Blocked? && !retryable else !IsTerminal(D(id).value)
      modifies this`log
      ensures Valid() && old(log) <= log && D(id).Some? && D(id).value.status.Failed?
      ensures HasFailed(old(D(id)).value, EveryOf(old(log), id.goal), D(id).value, retryable, now)
      ensures forall other | other != id :: D(other) == old(D(other))
      ensures SameEvery(old(log), log)
    {
      ghost var before := log;
      FailLocked(id, retryable, now, NO_USAGE, fromBlocked);
      forall g: nat ensures EveryOf(log, g) == EveryOf(before, g) {
        assert G(g) == GoalOf(log, g);
      }
    }

    // Reconciliation: passes over all deliveries, in the order they were scheduled.

    /** Reminds every open question whose time has come, once, and parks it. */
    method EmitReminders(now: Time)
      requires Valid()
      modifies this`log
      ensures Valid() && old(log) <= log
      ensures forall id :: D(id) == AfterOne(old(D(id)), Reminds(old(D(id)), now), Remind)
      ensures forall id | Reminds(old(D(id)), now) ::
                D(id).Some? && D(id).value.status.Parked? && D(id).value.reminded
      ensures (forall id :: !Reminds(old(D(id)), now)) ==> log == old(log)
      ensures SameEvery(old(log), log)
    {
      var ids := AllIds(log);
      AllListed(log);
      ghost var before := log;
      for i := 0 to |ids|
        invariant Valid() && before <= log && SameEvery(before, log)
        invariant forall id :: var d := DeliveryOf(before, id);
                    D(id) == if id in ids[..i] then AfterOne(d, Reminds(d, now), Remind) else d
        invariant (forall id :: !Reminds(DeliveryOf(before, id), now)) ==> log == before
      {
        var id := ids[i];
        assert ids[..i + 1] == ids[..i] + [id];
        assert id !in ids[..i];
        if Reminds(D(id), now) {
          GoalKnown(log, id);
          TouchedEvery(G(id.goal).value, Remind);
          Do(id, Remind);
        }
      }
      assert ids[..|ids|] == ids;
    }

    /** Closes every occurrence that waits for an approval the host no longer knows. */
    method ReconcileMissing(known: set<nat>, now: Time)
      requires Valid()
      modifies this`log
      ensures Valid() && old(log) <= log
      ensures forall id | !Orphaned(old(D(id)), known) :: D(id) == old(D(id))
      ensures forall id | Orphaned(old(D(id)), known) ::
                D(id).Some? && HasFailed(old(D(id)).value, EveryOf(old(log), id.goal), D(id).value, false, now)
      ensures SameEvery(old(log), log)
      ensures (forall id :: !Orphaned(old(D(id)), known)) ==> log == old(log)
    {
      var ids := AllIds(log);
      AllListed(log);
      ghost var before := log;
      for i := 0 to |ids|
        invariant Valid() && before <= log
        invariant forall id | id !in ids[..i] || !Orphaned(DeliveryOf(before, id), known) :: D(id) == DeliveryOf(before, id)
        invariant forall id | id in ids[..i] && Orphaned(DeliveryOf(before, id), known) ::
                    D(id).Some? && HasFailed(DeliveryOf(before, id).value, EveryOf(before, id.goal), D(id).value, false, now)
        invariant SameEvery(before, log)
        invariant (forall id :: !Orphaned(DeliveryOf(before, id), known)) ==> log == before
      {
        var id := ids[i];
        assert ids[..i + 1] == ids[..i] + [id];
        assert id !in ids[..i];
        if Orphaned(D(id), known) {
          FailNow(id, false, now, true);
        }
      }
      assert ids[..|ids|] == ids;
    }

    /** A phase that has outlived its deadline is put back or drained; afterwards none has. */
    method PhaseWatchdogs(now: Time) returns (touched: seq<DeliveryId>)
      requires Valid()
      modifies this`log
      ensures Valid() && old(log) <= log && log == PhasedLog(old(log), AllIds(old(log)), now)
      ensures touched == OverdueIn(old(log), AllIds(old(log)), now)
      ensures Distinct(touched) && forall id :: id in touched <==> Overdue(old(D(id)), now)
      ensures forall id :: D(id) == AfterOne(old(D(id)), Overdue(old(D(id)), now), Overrun(old(D(id)), now))
      ensures forall id | Overdue(old(D(id)), now) :: D(id).Some? && HasOverrun(old(D(id)).value, D(id).value, now)
      ensures forall id :: !Overdue(D(id), now)
      ensures (forall id :: !Overdue(old(D(id)), now)) ==> log == old(log)
      ensures SameEvery(old(log), log)
    {
      touched := [];
      var ids := AllIds(log);
      AllListed(log);
      ghost var before := log;
      for i := 0 to |ids|
        invariant Valid() && before <= log && log == PhasedLog(before, ids[..i], now) && touched == OverdueIn(before, ids[..i], now)
        invariant (forall id :: !Overdue(DeliveryOf(before, id), now)) ==> log == before
      {
        var id := ids[i];
        Collections.TakeNext(ids, i);
        PhasedEach(before, ids[..i], now);
        assert id !in ids[..i];
        if Overdue(D(id), now) {
          GoalKnown(log, id);
          Do(id, Overrun(D(id), now));
          touched := touched + [id];
        }
      }
      Collections.TakeAll(ids);
      PhasedEach(before, ids, now);
      PhasedEvery(before, ids, now);
      OverdueListed(before, ids, now);
      forall id
        ensures !Overdue(D(id), now)
        ensures Overdue(DeliveryOf(before, id), now) ==> D(id).Some? && HasOverrun(DeliveryOf(before, id).value, D(id).value, now)
      {
        OverrunEnds(DeliveryOf(before, id), now);
        if Overdue(DeliveryOf(before, id), now) {
          OverrunIs(DeliveryOf(before, id).value, now);
        }
      }
    }

    /** The result file of a delivery, if there is one. */
    function Side(id: DeliveryId): Option<Sidecar>
      reads this`sidecars
    {
      SideOf(sidecars, id)
    }

    /** Takes over one delivery that a dead process was working on. */
    method TakeOver(id: DeliveryId, now: Time)
      requires Valid() && Abandoned(D(id), runner)
      modifies this`log
      ensures Valid() && old(G(id.goal)).Some?
      ensures log == old(log) + Takeover(old(D(id)).value, old(G(id.goal)).value, Side(id), id, now)
    {
      FlagFollows(log, id);
      GoalKnown(log, id);
      var d := D(id).value;
      if d.status.Pending? || d.status.Claimed? {
        Do(id, Interrupt(Some(now), false));
      } else if d.status.Draining? {
        FailLocked(id, d.retryable, now, NO_USAGE, false);
      } else if d.status.Applying? {
        FailApplying(id, now);
      } else if id in sidecars {
        RecoverIfNeeded(id);
      } else {
        Do(id, Interrupt(None, true));
      }
    }

    method FailApplying(id: DeliveryId, now: Time)
      requires Valid() && D(id).Some? && D(id).value.status.Applying? && !IsTerminal(D(id).value)
      modifies this`log
      ensures Valid() && old(G(id.goal)).Some?
      ensures var d, g := old(D(id)).value, old(G(id.goal)).value;
              log == old(log) + [EventFor(id, d, GoalLog.Drain(ApplyPhase))] + Fails(Stepped(d, GoalLog.Drain(ApplyPhase)), g, false, now, id)
    {
      GoalKnown(log, id);
      Do(id, GoalLog.Drain(ApplyPhase));
      FailLocked(id, false, now, NO_USAGE, false);
    }

    /** At startup: what each abandoned delivery becomes is taken from its record, its goal's interval and
        its result file.  Afterwards every delivery in hand belongs to this process, and no other was changed. */
    method ReconcileStale(now: Time)
      requires Valid()
      modifies this`log
      ensures Valid() && log == Restarted(old(log), AllIds(old(log)), sidecars, runner, now)
      ensures forall id | D(id).Some? && InHand(D(id).value) :: D(id).value.runner == Some(runner)
      ensures forall id | !Abandoned(old(D(id)), runner) :: D(id) == old(D(id))
      ensures forall id | Abandoned(old(D(id)), runner) ::
                old(G(id.goal)).Some? && D(id) == Some(AfterTakeover(old(D(id)).value, old(G(id.goal)).value, Side(id), now))
      // said of the records alone
      ensures forall id | Abandoned(old(D(id)), runner) ::
                D(id).Some? && old(G(id.goal)).Some? && TakenBy(old(D(id)).value, old(G(id.goal)).value.every, Side(id), D(id).value, now)
      ensures forall goal: nat | (forall id | Abandoned(old(D(id)), runner) && id.goal == goal :: Spared(old(D(id)).value, Side(id))) ::
                G(goal) == old(G(goal))
      ensures SameEvery(old(log), log)
    {
      var ids := AllIds(log);
      AllListed(log);
      ghost var before := log;
      for i := 0 to |ids|
        invariant Valid() && log == Restarted(before, ids[..i], sidecars, runner, now)
      {
        var id := ids[i];
        Collections.TakeNext(ids, i);
        if Abandoned(D(id), runner) {
          TakeOver(id, now);
        }
      }
      Collections.TakeAll(ids);
      RestartedAll(before, sidecars, runner, now);
      RestartedRecords(before, sidecars, runner, now);
      RestartedGoals(before, sidecars, runner, now);
      RestartedEvery(before, sidecars, runner, now);
    }
  }

  function Rearm(seconds: int, otherwise: int): int {
    var s := if seconds == 0 then otherwise else seconds;
    if s < 1 then 1 else s
  }

  predicate Deferrable(d: Delivery, expected: Option<nat>) {
    && !IsTerminal(d) && (expected.None? || expected.value == d.revision)
    && (d.status.Pending? || d.status.Claimed?)
  }

  function Blocking(d: Delivery, kind: Kind, reference: nat, now: Time, usage: Usage): Step {
    GoalLog.Block(kind, reference, if kind.Question? then Some(now + REMINDER_SECONDS * SECOND) else None, ReceiptFor(d, usage))
  }

  function Denial(d: Delivery, g: Goal, reference: Option<nat>, now: Time, usage: Usage): Step {
    GoalLog.Deny(now, if reference.Some? then reference else d.approval, Ends(d, g, now), ReceiptFor(d, usage))
  }

  predicate Names(log: Log, id: DeliveryId, kind: Kind, reference: nat) {
    && DeliveryOf(log, id).Some?
    && (if kind.Approval? then DeliveryOf(log, id).value.approval else DeliveryOf(log, id).value.question) == Some(reference)
  }

  /** Looked up from the end of the log, so that the delivery touched last is found first. */
  function Waiting(part: Log, log: Log, kind: Kind, reference: nat): (found: Option<DeliveryId>)
    ensures found.Some? ==> Names(log, found.value, kind, reference)
    ensures found.None? ==> forall e | e in part && e.OfDelivery? :: !Names(log, e.id, kind, reference)
  {
    if part == [] then None
    else
      var e := part[|part| - 1];
      if e.OfDelivery? && Names(log, e.id, kind, reference) then Some(e.id) else Waiting(part[..|part| - 1], log, kind, reference)
  }

  function AfterOne(d: Option<Delivery>, happens: bool, s: Step): Option<Delivery> {
    if d.Some? && happens then Some(Stepped(d.value, s)) else d
  }

  predicate Reminds(d: Option<Delivery>, now: Time) {
    && d.Some? && d.value.status.Blocked? && d.value.kind == Some(Question) && !d.value.reminded
    && d.value.reminderAt.Some? && d.value.reminderAt.value <= now
  }

  predicate Overdue(d: Option<Delivery>, now: Time) {
    && d.Some? && !IsTerminal(d.value) && !d.value.status.Draining?
    && d.value.phase.Some? && d.value.deadline.Some? && d.value.deadline.value <= now
  }

  function Overrun(d: Option<Delivery>, now: Time): Step {
    if d.None? || d.value.phase.None? then Acknowledge
    else if d.value.phase == Some(Phase.Wake) && (d.value.status.Pending? || d.value.status.Claimed?)
    then GoalLog.Defer(now + DEFER_SECONDS * SECOND)
    else GoalLog.Drain(d.value.phase.value)
  }

  /** The log after the watchdog on phases has gone over `ids`. */
  function PhasedLog(log: Log, ids: seq<DeliveryId>, now: Time): Log {
    if ids == [] then log
    else
      var before, id := PhasedLog(log, ids[..|ids| - 1], now), ids[|ids| - 1];
      var d := DeliveryOf(before, id);
      if Overdue(d, now) then before + [EventFor(id, d.value, Overrun(d, now))] else before
  }

  lemma {:induction false} PhasedEach(log: Log, ids: seq<DeliveryId>, now: Time)
    requires Distinct(ids)
    ensures var after := PhasedLog(log, ids, now);
            forall id :: DeliveryOf(after, id)
                         == if id in ids then AfterOne(DeliveryOf(log, id), Overdue(DeliveryOf(log, id), now), Overrun(DeliveryOf(log, id), now))
                            else DeliveryOf(log, id)
  {
    hide Overrun, Overdue, Stepped;
    if ids != [] {
      var front, last := ids[..|ids| - 1], ids[|ids| - 1];
      assert last !in front && forall id :: id in ids <==> id in front || id == last;
      PhasedEach(log, front, now);
      PhasedOne(PhasedLog(log, front, now), last, now);
    }
  }

  lemma PhasedOne(log: Log, id: DeliveryId, now: Time)
    ensures var d := DeliveryOf(log, id);
            Overdue(d, now) ==>
              d.Some? &&
              var after := log + [EventFor(id, d.value, Overrun(d, now))];
              DeliveryOf(after, id) == Some(Stepped(d.value, Overrun(d, now)))
              && forall x | x != id :: DeliveryOf(after, x) == DeliveryOf(log, x)
  {
    var d := DeliveryOf(log, id);
    if Overdue(d, now) {
      Appended(log, EventFor(id, d.value, Overrun(d, now)));
    }
  }

  lemma {:induction false} PhasedEvery(log: Log, ids: seq<DeliveryId>, now: Time)
    ensures SameEvery(log, PhasedLog(log, ids, now))
  {
    hide Overrun, Overdue, Touched;
    if ids != [] {
      var before, id := PhasedLog(log, ids[..|ids| - 1], now), ids[|ids| - 1];
      PhasedEvery(log, ids[..|ids| - 1], now);
      PhasedOne(before, id, now);
      var d := DeliveryOf(before, id);
      if Overdue(d, now) {
        Appended(before, EventFor(id, d.value, Overrun(d, now)));
        if GoalOf(before, id.goal).Some? {
          TouchedEvery(GoalOf(before, id.goal).value, Overrun(d, now));
        }
      }
    }
  }

  function OverdueIn(log: Log, ids: seq<DeliveryId>, now: Time): seq<DeliveryId> {
    if ids == [] then []
    else
      var before, id := OverdueIn(log, ids[..|ids| - 1], now), ids[|ids| - 1];
      if Overdue(DeliveryOf(log, id), now) then before + [id] else before
  }

  lemma {:induction false} OverdueListed(log: Log, ids: seq<DeliveryId>, now: Time)
    requires Distinct(ids)
    ensures Distinct(OverdueIn(log, ids, now))
    ensures forall id :: id in OverdueIn(log, ids, now) <==> id in ids && Overdue(DeliveryOf(log, id), now)
  {
    if ids != [] {
      var front, last := ids[..|ids| - 1], ids[|ids| - 1];
      assert last !in front && forall id :: id in ids <==> id in front || id == last;
      OverdueListed(log, front, now);
      DistinctConcat(OverdueIn(log, front, now), [last]);
    }
  }

  lemma OverrunEnds(d: Option<Delivery>, now: Time)
    ensures !Overdue(AfterOne(d, Overdue(d, now), Overrun(d, now)), now)
  {
  }

  predicate InHand(d: Delivery) {
    d.status.Pending? || d.status.Claimed? || d.status.Running? || d.status.Draining? || d.status.Applying?
  }

  predicate Abandoned(d: Option<Delivery>, runner: nat) {
    d.Some? && InHand(d.value) && d.value.runner != Some(runner)
  }

  /** A failure at startup, and what it gives the goal back. */
  function Fails(d: Delivery, g: Goal, retryable: bool, now: Time, id: DeliveryId): seq<Event> {
    var s := Failing(d, g, retryable, now, NO_USAGE);
    [EventFor(id, d, s)] + if s.terminal then Closing(d, g, s, id) else []
  }

  function SideOf(sidecars: map<DeliveryId, Sidecar>, id: DeliveryId): Option<Sidecar> {
    if id in sidecars then Some(sidecars[id]) else None
  }

  /** What is appended for a delivery whose process died: one not yet started or still running may be
      retried, a finished one is completed, one that was applying is never retried. */
  function Takeover(d: Delivery, g: Goal, side: Option<Sidecar>, id: DeliveryId, now: Time): seq<Event> {
    match d.status
    case Draining => Fails(d, g, d.retryable, now, id)
    case Applying => [EventFor(id, d, GoalLog.Drain(ApplyPhase))] + Fails(Stepped(d, GoalLog.Drain(ApplyPhase)), g, false, now, id)
    case Running => [EventFor(id, d, if side.Some? then Recovery(d, g, side.value) else Interrupt(None, true))]
    case _ => [EventFor(id, d, Interrupt(Some(now), false))]
  }

  /** What it becomes. */
  function AfterTakeover(d: Delivery, g: Goal, side: Option<Sidecar>, now: Time): Delivery {
    match d.status
    case Draining => Stepped(d, Failing(d, g, d.retryable, now, NO_USAGE))
    case Applying => var e := Stepped(d, GoalLog.Drain(ApplyPhase)); Stepped(e, Failing(e, g, false, now, NO_USAGE))
    case Running => Stepped(d, if side.Some? then Recovery(d, g, side.value) else Interrupt(None, true))
    case _ => Stepped(d, Interrupt(Some(now), false))
  }

  /** The log after the startup pass over `ids`. */
  function Restarted(log: Log, ids: seq<DeliveryId>, sidecars: map<DeliveryId, Sidecar>, runner: nat, now: Time): Log {
    if ids == [] then log
    else
      var before, id := Restarted(log, ids[..|ids| - 1], sidecars, runner, now), ids[|ids| - 1];
      if Abandoned(DeliveryOf(before, id), runner) && GoalOf(before, id.goal).Some?
      then before + Takeover(DeliveryOf(before, id).value, GoalOf(before, id.goal).value, SideOf(sidecars, id), id, now)
      else before
  }

  predicate Orphaned(d: Option<Delivery>, known: set<nat>) {
    && d.Some? && d.value.status.Blocked? && d.value.kind == Some(Approval)
    && d.value.approval.Some? && d.value.approval.value !in known
  }

  function AllIds(log: Log): seq<DeliveryId> {
    if log == [] then []
    else
      var before, e := AllIds(log[..|log| - 1]), log[|log| - 1];
      if e.OfDelivery? && e.step.Add? then before + [e.id] else before
  }

  lemma {:induction false} AllListed(log: Log)
    requires Legal(log)
    ensures Distinct(AllIds(log)) && forall id :: id in AllIds(log) <==> DeliveryOf(log, id).Some?
  {
    if log != [] {
      var before, e := log[..|log| - 1], log[|log| - 1];
      AllListed(before);
      if e.OfDelivery? && e.step.Add? {
        DistinctConcat(AllIds(before), [e.id]);
      }
    }
  }

  predicate Answerable(d: Delivery) {
    (d.status.Blocked? || d.status.Parked?) && d.kind == Some(Question)
  }

  predicate Approvable(d: Delivery) {
    !(d.status.Completed? || d.status.Materialized? || d.status.Denied? || d.status.Failed? || d.status.Parked?)
  }

  predicate Ended(d: Delivery) {
    d.status.Completed? || d.status.Materialized? || d.status.Denied? || d.status.Failed? || d.status.Parked?
  }

  predicate Completable(d: Delivery) {
    (d.status.Running? && !IsTerminal(d)) || d.status.Blocked? || d.status.Applying?
  }

  predicate Resolvable(d: Delivery) {
    d.status.Blocked? || d.status.Applying?
  }

  /** Neither over, nor draining, nor waiting for the decision any more. */
  predicate MovedOn(d: Delivery) {
    !Ended(d) && !d.status.Draining? && !Resolvable(d)
  }

  function Adopted(before: Owner, owner: Owner): Owner {
    Owner(owner.chat, if owner.session != "" then owner.session else before.session,
          if owner.project != "" then owner.project else before.project)
  }

  predicate Updatable(g: Goal, status: GoalStatus, f: Fields, expected: Option<nat>, now: Time) {
    var plan := Planned(Plan(g.wakeAt, g.every), f, now);
    && (GoalLog.Over(g.status) ==> status == g.status) && (expected.Some? ==> expected.value == g.revision)
    && plan.Some? && Owned(g.owner, plan.value.wakeAt, plan.value.every)
  }

  function Updating(g: Goal, status: GoalStatus, plan: Plan, now: Time): Change {
    var leaves, enters := g.status.Active? && !status.Active?, status.Active? && !g.status.Active?;
    Update(now, status, plan.wakeAt, plan.every,
           if leaves then Seconds(g, now) else g.elapsed,
           if leaves then None else if enters then Some(now) else g.lastActive, enters)
  }

  predicate MeantFor(turn: Option<DeliveryId>, id: DeliveryId) {
    turn.None? || turn.value == id
  }

  predicate Startable(d: Delivery) {
    d.status.Pending? || d.status.Claimed? || d.status.Failed? || d.status.Interrupted?
  }

  lemma EndingKeeps(d: Delivery, g: Goal, s: Step)
    requires Ending(s)
    ensures Stepped(d, s).continuation == d.continuation && Touched(g, s).every == g.every
  {
    match s
    case Complete(_, _, _, _) =>
    case Fail(_, _, _, _, _, _) =>
    case Deny(_, _, _, _) =>
    case Park(_, _, _) =>
  }

  // What appending does to the two folds.

  lemma StepEffect(log: Log, id: DeliveryId, s: Step)
    requires DeliveryOf(log, id).Some? && GoalOf(log, id.goal).Some?
    ensures var d, g := DeliveryOf(log, id).value, GoalOf(log, id.goal).value;
            var after := log + [EventFor(id, d, s)];
            && DeliveryOf(after, id) == Some(Stepped(d, s))
            && (forall x | x != id :: DeliveryOf(after, x) == DeliveryOf(log, x))
            && GoalOf(after, id.goal) == Some(Touched(g, s))
            && forall h | h != id.goal :: GoalOf(after, h) == GoalOf(log, h)
  {
    Appended(log, EventFor(id, DeliveryOf(log, id).value, s));
  }

  lemma TouchedEvery(g: Goal, s: Step)
    ensures Touched(g, s).every == g.every
  {
  }

  lemma ClosingEffect(log: Log, id: DeliveryId, d: Delivery, g: Goal, s: Step)
    requires DeliveryOf(log, id) == Some(Stepped(d, s)) && GoalOf(log, id.goal) == Some(Touched(g, s))
    ensures var after := log + Closing(d, g, s, id);
            && (forall x :: DeliveryOf(after, x) == DeliveryOf(log, x))
            && GoalOf(after, id.goal)
               == Some(if d.continuation
                       then Touched(g, s).(wakeAt := Stepped(d, s).nextWakeAt, revision := Touched(g, s).revision + 1)
                       else Touched(g, s))
            && forall h | h != id.goal :: GoalOf(after, h) == GoalOf(log, h)
  {
    hide Stepped, Touched;
    if d.continuation {
      Appended(log, Closing(d, g, s, id)[0]);
    } else {
      assert log + Closing(d, g, s, id) == log;
    }
  }

  lemma EndEffect(log: Log, id: DeliveryId, s: Step)
    requires DeliveryOf(log, id).Some? && GoalOf(log, id.goal).Some?
    ensures var d, g := DeliveryOf(log, id).value, GoalOf(log, id.goal).value;
            var after := log + [EventFor(id, d, s)] + Closing(d, g, s, id);
            && DeliveryOf(after, id) == Some(Stepped(d, s))
            && (forall x | x != id :: DeliveryOf(after, x) == DeliveryOf(log, x))
            && GoalOf(after, id.goal)
               == Some(if d.continuation
                       then Touched(g, s).(wakeAt := Stepped(d, s).nextWakeAt, revision := Touched(g, s).revision + 1)
                       else Touched(g, s))
            && forall h | h != id.goal :: GoalOf(after, h) == GoalOf(log, h)
  {
    hide Stepped, Touched;
    StepEffect(log, id, s);
    ClosingEffect(log + [EventFor(id, DeliveryOf(log, id).value, s)], id, DeliveryOf(log, id).value, GoalOf(log, id.goal).value, s);
  }

  /** `after` differs from `log` in one delivery, which became `d`, and in nothing of its goal's interval. */
  ghost predicate Became(log: Log, after: Log, id: DeliveryId, d: Delivery) {
    && DeliveryOf(after, id) == Some(d) && (forall x | x != id :: DeliveryOf(after, x) == DeliveryOf(log, x))
    && (forall h :: GoalOf(after, h).Some? <==> GoalOf(log, h).Some?)
    && (forall h | GoalOf(log, h).Some? :: GoalOf(after, h).value.every == GoalOf(log, h).value.every)
    && (forall h | h != id.goal :: GoalOf(after, h) == GoalOf(log, h))
  }

  lemma StepBecomes(log: Log, id: DeliveryId, s: Step)
    requires DeliveryOf(log, id).Some? && GoalOf(log, id.goal).Some?
    ensures var d := DeliveryOf(log, id).value; Became(log, log + [EventFor(id, d, s)], id, Stepped(d, s))
  {
    hide Stepped, Touched;
    StepEffect(log, id, s);
    TouchedEvery(GoalOf(log, id.goal).value, s);
  }

  lemma FailsBecomes(log: Log, id: DeliveryId, d: Delivery, g: Goal, retryable: bool, now: Time)
    requires DeliveryOf(log, id) == Some(d) && GoalOf(log, id.goal) == Some(g)
    ensures Became(log, log + Fails(d, g, retryable, now, id), id, Stepped(d, Failing(d, g, retryable, now, NO_USAGE)))
  {
    hide Stepped, Touched, DeliveryOf, GoalOf, ReceiptFor, Backoff;
    var s := Failing(d, g, retryable, now, NO_USAGE);
    TouchedEvery(g, s);
    if s.terminal {
      EndEffect(log, id, s);
      assert log + Fails(d, g, retryable, now, id) == log + [EventFor(id, d, s)] + Closing(d, g, s, id);
    } else {
      StepEffect(log, id, s);
      assert log + Fails(d, g, retryable, now, id) == log + [EventFor(id, d, s)];
    }
  }

  lemma ApplyingBecomes(log: Log, id: DeliveryId, d: Delivery, g: Goal, side: Option<Sidecar>, now: Time)
    requires DeliveryOf(log, id) == Some(d) && GoalOf(log, id.goal) == Some(g) && d.status.Applying?
    ensures Became(log, log + Takeover(d, g, side, id, now), id, AfterTakeover(d, g, side, now))
  {
    hide Stepped, Touched, Failing, Fails, DeliveryOf, GoalOf;
    var e := Stepped(d, GoalLog.Drain(ApplyPhase));
    var drained := log + [EventFor(id, d, GoalLog.Drain(ApplyPhase))];
    StepEffect(log, id, GoalLog.Drain(ApplyPhase));
    DrainTouches(g);
    FailsBecomes(drained, id, e, g, false, now);
    assert log + Takeover(d, g, side, id, now) == drained + Fails(e, g, false, now, id);
  }

  lemma TakeoverBecomes(log: Log, id: DeliveryId, side: Option<Sidecar>, now: Time)
    requires DeliveryOf(log, id).Some? && GoalOf(log, id.goal).Some?
    ensures var d, g := DeliveryOf(log, id).value, GoalOf(log, id.goal).value;
            Became(log, log + Takeover(d, g, side, id, now), id, AfterTakeover(d, g, side, now))
  {
    hide Stepped, Touched, Failing, Fails, Recovery;
    var d, g := DeliveryOf(log, id).value, GoalOf(log, id.goal).value;
    match d.status
    case Draining => FailsBecomes(log, id, d, g, d.retryable, now);
    case Applying => ApplyingBecomes(log, id, d, g, side, now);
    case Running => StepBecomes(log, id, if side.Some? then Recovery(d, g, side.value) else Interrupt(None, true));
    case _ => StepBecomes(log, id, Interrupt(Some(now), false));
  }

  lemma DrainTouches(g: Goal)
    ensures Touched(g, GoalLog.Drain(ApplyPhase)) == g
  {
  }

  // The startup pass.

  lemma StepEvery(d: Delivery, g: Goal, h: Goal, retryable: bool, side: Option<Sidecar>, now: Time)
    requires g.every == h.every
    ensures Failing(d, g, retryable, now, NO_USAGE) == Failing(d, h, retryable, now, NO_USAGE)
    ensures side.Some? ==> Recovery(d, g, side.value) == Recovery(d, h, side.value)
  {
  }

  lemma AfterTakeoverEvery(d: Delivery, g: Goal, h: Goal, side: Option<Sidecar>, now: Time)
    requires g.every == h.every
    ensures AfterTakeover(d, g, side, now) == AfterTakeover(d, h, side, now)
  {
    hide Stepped, Failing, Recovery;
    StepEvery(d, g, h, d.retryable, side, now);
    StepEvery(Stepped(d, GoalLog.Drain(ApplyPhase)), g, h, false, side, now);
  }

  /** Each delivery the pass goes over is taken over by itself; the others stay as they are. */
  lemma {:induction false} RestartedEach(log: Log, ids: seq<DeliveryId>, sidecars: map<DeliveryId, Sidecar>, runner: nat, now: Time)
    requires Distinct(ids) && forall id | id in ids :: DeliveryOf(log, id).Some? && GoalOf(log, id.goal).Some?
    ensures var after := Restarted(log, ids, sidecars, runner, now);
            && (forall h :: GoalOf(after, h).Some? <==> GoalOf(log, h).Some?)
            && (forall h | GoalOf(log, h).Some? :: GoalOf(after, h).value.every == GoalOf(log, h).value.every)
            && (forall x | x !in ids || !Abandoned(DeliveryOf(log, x), runner) :: DeliveryOf(after, x) == DeliveryOf(log, x))
            && (forall x | x in ids && Abandoned(DeliveryOf(log, x), runner) ::
                  DeliveryOf(after, x)
                  == Some(AfterTakeover(DeliveryOf(log, x).value, GoalOf(log, x.goal).value, SideOf(sidecars, x), now)))
  {
    hide AfterTakeover, Takeover;
    if ids != [] {
      var front, id := ids[..|ids| - 1], ids[|ids| - 1];
      var before := Restarted(log, front, sidecars, runner, now);
      assert id in ids && id !in front && forall x :: x in ids <==> x in front || x == id;
      RestartedEach(log, front, sidecars, runner, now);
      if Abandoned(DeliveryOf(log, id), runner) {
        TakeoverBecomes(before, id, SideOf(sidecars, id), now);
        AfterTakeoverEvery(DeliveryOf(log, id).value, GoalOf(before, id.goal).value, GoalOf(log, id.goal).value,
                           SideOf(sidecars, id), now);
      }
    }
  }

  lemma RestartedAll(log: Log, sidecars: map<DeliveryId, Sidecar>, runner: nat, now: Time)
    requires Legal(log)
    ensures var after := Restarted(log, AllIds(log), sidecars, runner, now);
            && (forall id | DeliveryOf(after, id).Some? && InHand(DeliveryOf(after, id).value) ::
                  DeliveryOf(after, id).value.runner == Some(runner))
            && (forall id | !Abandoned(DeliveryOf(log, id), runner) :: DeliveryOf(after, id) == DeliveryOf(log, id))
            && (forall id | Abandoned(DeliveryOf(log, id), runner) ::
                  GoalOf(log, id.goal).Some?
                  && DeliveryOf(after, id)
                     == Some(AfterTakeover(DeliveryOf(log, id).value, GoalOf(log, id.goal).value, SideOf(sidecars, id), now)))
  {
    hide AfterTakeover;
    AllListed(log);
    forall id | id in AllIds(log) ensures GoalOf(log, id.goal).Some? {
      GoalKnown(log, id);
    }
    RestartedEach(log, AllIds(log), sidecars, runner, now);
    forall id | Abandoned(DeliveryOf(log, id), runner)
      ensures !InHand(AfterTakeover(DeliveryOf(log, id).value, GoalOf(log, id.goal).value, SideOf(sidecars, id), now))
    {
      TakenOverAtRest(DeliveryOf(log, id).value, GoalOf(log, id.goal).value, SideOf(sidecars, id), now);
    }
  }

  lemma TakenOverAtRest(d: Delivery, g: Goal, side: Option<Sidecar>, now: Time)
    requires InHand(d)
    ensures !InHand(AfterTakeover(d, g, side, now))
  {
    hide Stepped, ReceiptFor, Ends, NextWake, Backoff;
    var e := Stepped(d, GoalLog.Drain(ApplyPhase));
    AtRest(d, Failing(d, g, d.retryable, now, NO_USAGE));
    AtRest(e, Failing(e, g, false, now, NO_USAGE));
    AtRest(d, if side.Some? then Recovery(d, g, side.value) else Interrupt(None, true));
    AtRest(d, Interrupt(Some(now), false));
  }

  lemma AtRest(d: Delivery, s: Step)
    requires s.Fail? || s.Complete? || s.Interrupt?
    ensures !InHand(Stepped(d, s))
  {
    match s
    case Fail(_, _, _, _, _, _) =>
    case Complete(_, _, _, _) =>
    case Interrupt(_, _) =>
  }

  /** When no other occurrence of its goal is taken over, the goal ends as this takeover alone leaves it. */
  lemma {:induction false} RestartedGoal(log: Log, ids: seq<DeliveryId>, sidecars: map<DeliveryId, Sidecar>, runner: nat, now: Time,
                                         id: DeliveryId)
    requires Distinct(ids) && forall x | x in ids :: DeliveryOf(log, x).Some? && GoalOf(log, x.goal).Some?
    requires forall x | x in ids && x.goal == id.goal && x != id :: !Abandoned(DeliveryOf(log, x), runner)
    ensures var after := Restarted(log, ids, sidecars, runner, now);
            && (id !in ids || !Abandoned(DeliveryOf(log, id), runner) ==> GoalOf(after, id.goal) == GoalOf(log, id.goal))
            && (id in ids && Abandoned(DeliveryOf(log, id), runner) && DeliveryOf(log, id).value.status.Running? && id in sidecars ==>
                  GoalOf(after, id.goal)
                  == Some(Touched(GoalOf(log, id.goal).value,
                                  Recovery(DeliveryOf(log, id).value, GoalOf(log, id.goal).value, sidecars[id]))))
  {
    hide AfterTakeover, Takeover, Touched, Recovery;
    if ids != [] {
      var front, last := ids[..|ids| - 1], ids[|ids| - 1];
      var before := Restarted(log, front, sidecars, runner, now);
      assert last in ids && last !in front && forall x :: x in ids <==> x in front || x == last;
      RestartedEach(log, front, sidecars, runner, now);
      RestartedGoal(log, front, sidecars, runner, now, id);
      if Abandoned(DeliveryOf(log, last), runner) {
        TakeoverBecomes(before, last, SideOf(sidecars, last), now);
        if last == id && DeliveryOf(log, id).value.status.Running? && id in sidecars {
          RunningTakeover(before, id, sidecars[id], now);
        }
      }
    }
  }

  lemma RunningTakeover(log: Log, id: DeliveryId, side: Sidecar, now: Time)
    requires DeliveryOf(log, id).Some? && GoalOf(log, id.goal).Some? && DeliveryOf(log, id).value.status.Running?
    ensures var d, g := DeliveryOf(log, id).value, GoalOf(log, id.goal).value;
            GoalOf(log + Takeover(d, g, Some(side), id, now), id.goal) == Some(Touched(g, Recovery(d, g, side)))
  {
    hide Stepped, Touched, Recovery;
    StepEffect(log, id, Recovery(DeliveryOf(log, id).value, GoalOf(log, id.goal).value, side));
  }

  // What the pass does, said of the records alone.

  const MINUTE: int := 60_000_000

  /** The next time of a goal that is woken every so many minutes. */
  function Later(every: nat, at: Time): Option<Time> {
    if every == 0 then None else Some(at + every * MINUTE)
  }

  /** The schedule moved on to `next`, or it did not move. */
  predicate Moved(d: Delivery, e: Delivery, moves: bool, next: Option<Time>) {
    e.scheduleAdvanced == moves && e.nextWakeAt == if moves then next else d.nextWakeAt
  }

  /** It failed: to be retried after one or two minutes as its second or third attempt, or for good. */
  predicate HasFailed(d: Delivery, every: nat, e: Delivery, retryable: bool, now: Time) {
    && e.status.Failed? && e.retryable == retryable && e.deadline.None?
    && if retryable && d.attempt < 3
       then !e.terminal && e.consumeRetry && e.retryAt == Some(now + (if d.attempt <= 1 then 1 else 2) * MINUTE)
            && Moved(d, e, false, None)
       else e.terminal && !e.consumeRetry && e.retryAt.None?
            && Moved(d, e, !d.scheduleAdvanced && !d.continuation, Later(every, now))
  }

  /** The approved action was carried out, or failed to be. */
  predicate Carries(d: Delivery, every: nat, e: Delivery, ok: bool, now: Time) {
    if ok then HasCompleted(d, every, e, now, !d.scheduleAdvanced && !d.continuation) else HasFailed(d, every, e, false, now)
  }

  predicate HasCompleted(d: Delivery, every: nat, e: Delivery, at: Time, moves: bool) {
    && e.status.Completed? && e.terminal && e.completedAt == Some(at) && e.resultAvailable
    && e.retryAt.None? && e.deadline.None? && Moved(d, e, moves, Later(every, at))
  }

  /** It was refused, or given up. */
  predicate HasClosed(d: Delivery, every: nat, e: Delivery, now: Time) {
    e.terminal && !e.retryable && e.retryAt.None? && e.deadline.None?
    && Moved(d, e, !d.scheduleAdvanced && !d.continuation, Later(every, now))
  }

  /** It was claimed, with half a minute to be begun in. */
  predicate HasClaimed(e: Delivery, attempt: nat, runner: nat, now: Time) {
    e.status.Claimed? && !e.terminal && e.attempt == attempt && !e.consumeRetry && e.runner == Some(runner)
    && e.phase == Some(Phase.Wake) && e.deadline == Some(now + MINUTE / 2)
  }

  /** It is time to wake the goal, and there is a chat to wake it in. */
  predicate Wakeable(g: Goal, now: Time) {
    g.status.Active? && g.owner.chat != "" && g.wakeAt.Some? && g.wakeAt.value <= now
  }

  /** It stopped before its end and has an attempt left. */
  predicate Retries(d: Delivery) {
    && (d.status.Failed? || d.status.Interrupted? || d.status.Skipped?) && !d.terminal
    && d.attempt + (if d.consumeRetry then 1 else 0) <= 3
  }

  /** What becomes of an old occurrence when its goal is woken: it is completed, claimed again, or left alone. */
  predicate Woken(d: Delivery, every: nat, side: Option<Sidecar>, e: Delivery, runner: nat, now: Time) {
    if Recoverable(d) && side.Some? then HasCompleted(d, every, e, side.value.at, true)
    else if Retries(d) then HasClaimed(e, d.attempt + (if d.consumeRetry then 1 else 0), runner, now) && e.owner == d.owner
    else e == d
  }

  /** The stagger holds a goal back, by no more than 45 seconds, and never wakes it early. */
  lemma DueWhen(g: Goal, now: Time, stagger: int)
    ensures Due(g, now, stagger) ==> Wakeable(g, now)
    ensures Wakeable(g, now - MAX_STAGGER * SECOND) ==> Due(g, now, stagger)
    ensures MAX_STAGGER * SECOND == MINUTE * 3 / 4
  {
  }

  function EveryOf(log: Log, goal: nat): nat {
    if GoalOf(log, goal).Some? then GoalOf(log, goal).value.every else 0
  }

  /** The intervals are what they were. */
  ghost predicate SameEvery(before: Log, after: Log) {
    forall goal :: EveryOf(after, goal) == EveryOf(before, goal)
  }

  /** What an occurrence that has ended leaves its goal: the schedule moves on with it, and is given back
      where the occurrence had been continued after the schedule had moved on. */
  predicate Handed(g: Goal, h: Goal, d: Delivery, e: Delivery) {
    && h.wakeAt == (if d.continuation || e.scheduleAdvanced then e.nextWakeAt else g.wakeAt)
    && h.wakeCount == g.wakeCount + (if e.scheduleAdvanced then 1 else 0)
    && h.status == g.status && h.every == g.every && h.owner == g.owner
  }

  lemma EndingHands(d: Delivery, g: Goal, s: Step)
    requires Ending(s) && (d.continuation ==> AdvanceOf(s).Stays?)
    ensures var e := Stepped(d, s);
            Handed(g, if d.continuation then Touched(g, s).(wakeAt := e.nextWakeAt, revision := Touched(g, s).revision + 1)
                      else Touched(g, s), d, e)
  {
    match s
    case Complete(_, _, _, _) =>
    case Fail(_, _, _, _, _, _) =>
    case Deny(_, _, _, _) =>
    case Park(_, _, _) =>
  }

  lemma DenialIs(d: Delivery, g: Goal, reference: Option<nat>, now: Time, usage: Usage)
    ensures var e := Stepped(d, Denial(d, g, reference, now, usage));
            && e.status.Denied? && HasClosed(d, g.every, e, now)
            && e.approval == if reference.Some? then reference else d.approval
  {
  }

  lemma ParkIs(d: Delivery, g: Goal, now: Time, usage: Usage)
    ensures var e := Stepped(d, GoalLog.Park(now, Ends(d, g, now), ReceiptFor(d, usage)));
            e.status.Parked? && HasClosed(d, g.every, e, now)
  {
    hide ReceiptFor, Applied;
    ParkedAs(d, now, Ends(d, g, now), ReceiptFor(d, usage));
  }

  lemma ParkedAs(d: Delivery, now: Time, advance: Advance, receipt: Receipt)
    ensures Applied(d, GoalLog.Park(now, advance, receipt))
            == Marked(d, advance, receipt).(status := Parked, terminal := true, retryable := false, retryAt := None, deadline := None)
  {
  }

  lemma ClaimIs(d: Delivery, attempt: nat, runner: nat, now: Time)
    ensures HasClaimed(Stepped(d, Claim(Deadline(now, Phase.Wake), runner, attempt)), attempt, runner, now)
    ensures Stepped(d, Claim(Deadline(now, Phase.Wake), runner, attempt)).owner == d.owner
  {
  }

  /** A phase that is overdue: what was only claimed may be claimed again in five seconds at no cost, the rest drains. */
  predicate HasOverrun(d: Delivery, e: Delivery, now: Time) {
    && e.attempt == d.attempt && e.scheduleAdvanced == d.scheduleAdvanced && e.nextWakeAt == d.nextWakeAt
    && if (d.status.Pending? || d.status.Claimed?) && d.phase == Some(Phase.Wake)
       then e.status.Interrupted? && e.retryable && !e.consumeRetry && e.retryAt == Some(now + MINUTE / 12)
       else e.status.Draining? && e.phase == d.phase && !e.terminal
  }

  lemma OverrunIs(d: Delivery, now: Time)
    requires Overdue(Some(d), now)
    ensures HasOverrun(d, Stepped(d, Overrun(Some(d), now)), now)
  {
    hide Stepped;
    if d.phase == Some(Phase.Wake) && (d.status.Pending? || d.status.Claimed?) {
      DeferIs(d, now + DEFER_SECONDS * SECOND);
    } else {
      DrainIs(d, d.phase.value);
    }
  }

  lemma DeferIs(d: Delivery, again: Time)
    ensures var e := Stepped(d, GoalLog.Defer(again));
            && e.status.Interrupted? && e.retryable && !e.consumeRetry && e.retryAt == Some(again)
            && e.attempt == d.attempt && e.scheduleAdvanced == d.scheduleAdvanced && e.nextWakeAt == d.nextWakeAt
  {
  }

  lemma DrainIs(d: Delivery, phase: Phase)
    ensures var e := Stepped(d, GoalLog.Drain(phase));
            && e.status.Draining? && e.phase == Some(phase) && !e.terminal && e.retryable && e.retryAt.None?
            && e.attempt == d.attempt && e.scheduleAdvanced == d.scheduleAdvanced && e.nextWakeAt == d.nextWakeAt
  {
  }

  lemma AnswerIs(d: Delivery, g: Goal, continuation: bool)
    ensures var e := Stepped(d, Answer(continuation));
            IsInterrupted(d, e, None, false) && e.answered && e.continuation == continuation && Touched(g, Answer(continuation)) == g
  {
  }

  predicate IsInterrupted(d: Delivery, e: Delivery, retryAt: Option<Time>, consume: bool) {
    && e.status.Interrupted? && !e.terminal && e.retryable && e.consumeRetry == consume && e.retryAt == retryAt
    && e.scheduleAdvanced == d.scheduleAdvanced && e.nextWakeAt == d.nextWakeAt
  }

  /** What becomes of a delivery whose process died. */
  predicate TakenBy(d: Delivery, every: nat, side: Option<Sidecar>, e: Delivery, now: Time) {
    && e.attempt == d.attempt && e.owner == d.owner && e.approval == d.approval && e.question == d.question
    && match d.status
       case Draining => HasFailed(d, every, e, true, now)
       case Applying => HasFailed(d, every, e, false, now)
       case Running =>
         if side.Some? then HasCompleted(d, every, e, side.value.at, true) else IsInterrupted(d, e, None, true)
       case _ => IsInterrupted(d, e, Some(now), false) && e.runner.None? && e.deadline.None?
  }

  /** It goes on later, and nothing of its goal is touched. */
  predicate Spared(d: Delivery, side: Option<Sidecar>) {
    d.status.Pending? || d.status.Claimed? || (d.status.Running? && side.None?) || (d.status.Draining? && d.attempt < 3)
  }

  lemma FailureIs(d: Delivery, g: Goal, retryable: bool, now: Time, usage: Usage)
    ensures var e := Stepped(d, Failing(d, g, retryable, now, usage));
            && HasFailed(d, g.every, e, retryable, now)
            && e.attempt == d.attempt && e.owner == d.owner && e.approval == d.approval && e.question == d.question
  {
  }

  lemma RecoveryIs(d: Delivery, g: Goal, side: Sidecar)
    ensures var e := Stepped(d, Recovery(d, g, side));
            && HasCompleted(d, g.every, e, side.at, true)
            && e.attempt == d.attempt && e.owner == d.owner && e.approval == d.approval && e.question == d.question
  {
  }

  lemma CompletionIs(d: Delivery, g: Goal, at: Time, usage: Usage)
    ensures HasCompleted(d, g.every, Stepped(d, Completion(d, g, at, usage)), at, !d.scheduleAdvanced && !d.continuation)
  {
  }

  lemma InterruptIs(d: Delivery, retryAt: Option<Time>, consume: bool)
    ensures var e := Stepped(d, Interrupt(retryAt, consume));
            && IsInterrupted(d, e, retryAt, consume) && (!consume ==> e.runner.None? && e.deadline.None?)
            && e.attempt == d.attempt && e.owner == d.owner && e.approval == d.approval && e.question == d.question
  {
  }

  lemma TakenOverIs(d: Delivery, g: Goal, side: Option<Sidecar>, now: Time)
    requires d.status.Draining? ==> d.retryable
    ensures InHand(d) ==> TakenBy(d, g.every, side, AfterTakeover(d, g, side, now), now)
  {
    hide Stepped, Failing, Recovery, HasFailed, HasCompleted, IsInterrupted;
    match d.status
    case Draining => FailureIs(d, g, true, now, NO_USAGE);
    case Applying => ApplyingIs(d, g, now);
    case Running =>
      if side.Some? {
        RecoveryIs(d, g, side.value);
      } else {
        InterruptIs(d, None, true);
      }
    case _ => InterruptIs(d, Some(now), false);
  }

  lemma ApplyingIs(d: Delivery, g: Goal, now: Time)
    ensures var b := Stepped(d, GoalLog.Drain(ApplyPhase));
            var e := Stepped(b, Failing(b, g, false, now, NO_USAGE));
            && HasFailed(d, g.every, e, false, now)
            && e.attempt == d.attempt && e.owner == d.owner && e.approval == d.approval && e.question == d.question
  {
    hide Failing;
    FailureIs(Stepped(d, GoalLog.Drain(ApplyPhase)), g, false, now, NO_USAGE);
  }

  lemma RestartedRecords(log: Log, sidecars: map<DeliveryId, Sidecar>, runner: nat, now: Time)
    requires Legal(log)
    ensures var after := Restarted(log, AllIds(log), sidecars, runner, now);
            forall id | Abandoned(DeliveryOf(log, id), runner) ::
              && DeliveryOf(after, id).Some? && GoalOf(log, id.goal).Some?
              && TakenBy(DeliveryOf(log, id).value, GoalOf(log, id.goal).value.every, SideOf(sidecars, id), DeliveryOf(after, id).value, now)
  {
    hide TakenBy, AfterTakeover;
    RestartedAll(log, sidecars, runner, now);
    forall id | Abandoned(DeliveryOf(log, id), runner)
      ensures TakenBy(DeliveryOf(log, id).value, GoalOf(log, id.goal).value.every, SideOf(sidecars, id),
                      AfterTakeover(DeliveryOf(log, id).value, GoalOf(log, id.goal).value, SideOf(sidecars, id), now), now)
    {
      DrainingRetries(log, id);
      TakenOverIs(DeliveryOf(log, id).value, GoalOf(log, id.goal).value, SideOf(sidecars, id), now);
    }
  }

  lemma RestartedEvery(log: Log, sidecars: map<DeliveryId, Sidecar>, runner: nat, now: Time)
    requires Legal(log)
    ensures SameEvery(log, Restarted(log, AllIds(log), sidecars, runner, now))
  {
    AllListed(log);
    forall id | id in AllIds(log) ensures GoalOf(log, id.goal).Some? {
      GoalKnown(log, id);
    }
    RestartedEach(log, AllIds(log), sidecars, runner, now);
  }

  /** A goal is as it was when everything of it that is taken over goes on later. */
  lemma RestartedGoals(log: Log, sidecars: map<DeliveryId, Sidecar>, runner: nat, now: Time)
    requires Legal(log)
    ensures forall goal: nat | (forall id | Abandoned(DeliveryOf(log, id), runner) && id.goal == goal ::
                                  Spared(DeliveryOf(log, id).value, SideOf(sidecars, id))) ::
              GoalOf(Restarted(log, AllIds(log), sidecars, runner, now), goal) == GoalOf(log, goal)
  {
    hide Spared, Restarted;
    AllListed(log);
    forall id | id in AllIds(log) ensures GoalOf(log, id.goal).Some? && Drains(DeliveryOf(log, id)) {
      GoalKnown(log, id);
      DrainingRetries(log, id);
    }
    forall goal: nat | forall id | Abandoned(DeliveryOf(log, id), runner) && id.goal == goal ::
                         Spared(DeliveryOf(log, id).value, SideOf(sidecars, id))
      ensures GoalOf(Restarted(log, AllIds(log), sidecars, runner, now), goal) == GoalOf(log, goal)
    {
      RestartedSpares(log, AllIds(log), sidecars, runner, now, goal);
    }
  }

  lemma {:induction false} RestartedSpares(log: Log, ids: seq<DeliveryId>, sidecars: map<DeliveryId, Sidecar>, runner: nat, now: Time,
                                           goal: nat)
    requires Distinct(ids)
    requires forall id | id in ids :: DeliveryOf(log, id).Some? && GoalOf(log, id.goal).Some? && Drains(DeliveryOf(log, id))
    requires forall id | Abandoned(DeliveryOf(log, id), runner) && id.goal == goal :: Spared(DeliveryOf(log, id).value, SideOf(sidecars, id))
    ensures GoalOf(Restarted(log, ids, sidecars, runner, now), goal) == GoalOf(log, goal)
  {
    hide Takeover, AfterTakeover, Spared, Drains;
    if ids != [] {
      var front, id := ids[..|ids| - 1], ids[|ids| - 1];
      var before := Restarted(log, front, sidecars, runner, now);
      assert id in ids && id !in front && forall x :: x in ids <==> x in front || x == id;
      RestartedEach(log, front, sidecars, runner, now);
      RestartedSpares(log, front, sidecars, runner, now, goal);
      if Abandoned(DeliveryOf(log, id), runner) {
        TakeoverBecomes(before, id, SideOf(sidecars, id), now);
        if id.goal == goal {
          SparedGoal(before, id, SideOf(sidecars, id), now);
        }
      }
    }
  }

  lemma SparedGoal(log: Log, id: DeliveryId, side: Option<Sidecar>, now: Time)
    requires DeliveryOf(log, id).Some? && GoalOf(log, id.goal).Some? && Drains(DeliveryOf(log, id))
    requires Spared(DeliveryOf(log, id).value, side)
    ensures var d, g := DeliveryOf(log, id).value, GoalOf(log, id.goal).value;
            GoalOf(log + Takeover(d, g, side, id, now), id.goal) == Some(g)
  {
    hide Stepped, DeliveryOf, GoalOf, Touched, Failing;
    var d, g := DeliveryOf(log, id).value, GoalOf(log, id.goal).value;
    var s := if d.status.Draining? then Failing(d, g, true, now, NO_USAGE)
             else if d.status.Running? then Interrupt(None, true) else Interrupt(Some(now), false);
    SparedStep(d, g, now);
    assert Takeover(d, g, side, id, now) == [EventFor(id, d, s)];
    StepEffect(log, id, s);
  }

  lemma SparedStep(d: Delivery, g: Goal, now: Time)
    ensures d.attempt < 3 ==> !Failing(d, g, true, now, NO_USAGE).terminal && Touched(g, Failing(d, g, true, now, NO_USAGE)) == g
    ensures Touched(g, Interrupt(None, true)) == g && Touched(g, Interrupt(Some(now), false)) == g
  {
    assert Bounded(NO_USAGE).keys == [];
  }

  predicate Drains(d: Option<Delivery>) {
    d.Some? && d.value.status.Draining? ==> d.value.retryable
  }

  /** What is draining may be retried; only its end decides whether it is. */
  lemma {:induction false} DrainingRetries(log: Log, id: DeliveryId)
    requires Legal(log)
    ensures Drains(DeliveryOf(log, id))
  {
    if log != [] {
      var before, e := log[..|log| - 1], log[|log| - 1];
      DrainingRetries(before, id);
      if e.OfDelivery? && e.id == id && DeliveryOf(before, id).Some? {
        DrainingStep(DeliveryOf(before, id).value, GoalOf(before, id.goal).value, e.step);
      }
    }
  }

  lemma DrainingStep(d: Delivery, g: Goal, s: Step)
    requires Possible(d, g, s) && Drains(Some(d))
    ensures Drains(Some(Applied(d, s)))
  {
    hide Receivable, ReceiptFor, Ends, Marked;
  }

  // A host that dies between writing a result and recording it.

  predicate Unrelated(e: Event, goal: nat) {
    if e.OfDelivery? then e.id.goal != goal else e.goal != goal
  }

  lemma {:induction false} UnrelatedKeeps(log: Log, more: Log, id: DeliveryId)
    requires forall e | e in more :: Unrelated(e, id.goal)
    ensures DeliveryOf(log + more, id) == DeliveryOf(log, id) && GoalOf(log + more, id.goal) == GoalOf(log, id.goal)
  {
    if more == [] {
      assert log + more == log;
    } else {
      assert (log + more)[..|log + more| - 1] == log + more[..|more| - 1];
      assert more[|more| - 1] in more;
      UnrelatedKeeps(log, more[..|more| - 1], id);
    }
  }

  function Totaled(total: Usage, raw: Usage): Usage {
    if Bounded(raw).keys == [] then total else Merged(total, Bounded(raw))
  }

  /** The usage handed over with a result adds up to what the result itself reports. */
  predicate UsageAgrees(d: Delivery, g: Goal, used: Usage, response: Usage) {
    Totaled(d.usage, used) == Totaled(d.usage, response) && Totaled(g.usage, used) == Totaled(g.usage, response)
  }

  lemma UsageAgreesWithItself(d: Delivery, g: Goal, usage: Usage)
    ensures UsageAgrees(d, g, usage, usage)
  {
  }

  /** What a completed delivery and its goal are without a crash, and what recovery makes of a running one. */
  lemma CompletionCompared(d: Delivery, g: Goal, at: Time, used: Usage, response: Usage)
    requires Completable(d)
    ensures var done, found := Completion(d, g, at, used), Recovery(d, g, Sidecar(at, response));
            var closed := if d.continuation
                          then Touched(g, done).(wakeAt := Stepped(d, done).nextWakeAt, revision := Touched(g, done).revision + 1)
                          else Touched(g, done);
            && (Stepped(d, done) == Stepped(d, found) && closed == Touched(g, found) <==> !Already(d) && UsageAgrees(d, g, used, response))
            && (Already(d) ==> Touched(g, found).wakeCount == closed.wakeCount + 1)
            && Stepped(d, done).status.Completed? && Stepped(d, done).resultAvailable
  {
    hide UsageTotals.Merged, UsageTotals.Bounded, NextWake;
  }

  lemma ApplyingLost(d: Delivery, g: Goal, side: Option<Sidecar>, now: Time)
    requires d.status.Applying?
    ensures var e := AfterTakeover(d, g, side, now);
            e.status.Failed? && e.terminal && e.resultAvailable == d.resultAvailable
  {
  }

  /** The host dies after the result was written and before the event that says so, and the next one
      takes over, whatever happened to other goals in between.  Delivery and goal are then as an
      uninterrupted completion leaves them if, and only if, the delivery was running, had not advanced the
      schedule before, and the result reports the usage that was handed over (so it does when none was).  A running continuation
      advances the schedule once more than it should; an approved action that was applied is failed for
      good, its result file notwithstanding; a delivery that was still blocked goes on waiting. */
  lemma CrashEquivalence(log: Log, more: Log, sidecars: map<DeliveryId, Sidecar>, id: DeliveryId, at: Time, response: Usage,
                         context: Option<Usage>, runner: nat, now: Time)
    requires Legal(log) && Legal(log + more) && DeliveryOf(log, id).Some? && Completable(DeliveryOf(log, id).value)
    requires forall e | e in more :: Unrelated(e, id.goal)
    requires DeliveryOf(log, id).value.runner != Some(runner)
    requires forall x: DeliveryId | x.goal == id.goal && x != id :: !Abandoned(DeliveryOf(log, x), runner)
    ensures GoalOf(log, id.goal).Some?
    ensures var d, g := DeliveryOf(log, id).value, GoalOf(log, id.goal).value;
            var used := if context.Some? then context.value else response;
            var done := Completion(d, g, at, used);
            var smooth := log + [EventFor(id, d, done)] + Closing(d, g, done, id);
            var crashed := Restarted(log + more, AllIds(log + more), sidecars[id := Sidecar(at, response)], runner, now);
            && (context.None? ==> UsageAgrees(d, g, used, response))
            && DeliveryOf(crashed, id).Some? && GoalOf(crashed, id.goal).Some? && GoalOf(smooth, id.goal).Some?
            && (DeliveryOf(smooth, id) == DeliveryOf(crashed, id) && GoalOf(smooth, id.goal) == GoalOf(crashed, id.goal)
                <==> d.status.Running? && !Already(d) && UsageAgrees(d, g, used, response))
            && (d.status.Running? && Already(d) ==>
                  GoalOf(crashed, id.goal).value.wakeCount == GoalOf(smooth, id.goal).value.wakeCount + 1)
            && (d.status.Applying? ==> DeliveryOf(crashed, id).value.status.Failed? && DeliveryOf(crashed, id).value.terminal)
            && (d.status.Blocked? ==> DeliveryOf(crashed, id) == Some(d) && GoalOf(crashed, id.goal) == Some(g))
  {
    hide Completion, Recovery, Closing, AfterTakeover, Restarted, AllIds, Legal, DeliveryOf, GoalOf, Stepped, Touched, UsageAgrees;
    GoalKnown(log, id);
    var d, g := DeliveryOf(log, id).value, GoalOf(log, id.goal).value;
    var used := if context.Some? then context.value else response;
    var side := Sidecar(at, response);
    EndEffect(log, id, Completion(d, g, at, used));
    CompletionCompared(d, g, at, used, response);
    UsageAgreesWithItself(d, g, response);
    CrashedIs(log, more, sidecars[id := side], id, runner, now);
    if d.status.Applying? {
      ApplyingLost(d, g, Some(side), now);
    }
    RunningTaken(d, g, side, now);
  }

  lemma RunningTaken(d: Delivery, g: Goal, side: Sidecar, now: Time)
    ensures d.status.Running? ==> AfterTakeover(d, g, Some(side), now) == Stepped(d, Recovery(d, g, side))
  {
  }

  lemma CrashedIs(log: Log, more: Log, sidecars: map<DeliveryId, Sidecar>, id: DeliveryId, runner: nat, now: Time)
    requires Legal(log) && Legal(log + more) && DeliveryOf(log, id).Some? && id in sidecars && GoalOf(log, id.goal).Some?
    requires forall e | e in more :: Unrelated(e, id.goal)
    requires DeliveryOf(log, id).value.runner != Some(runner)
    requires forall x: DeliveryId | x.goal == id.goal && x != id :: !Abandoned(DeliveryOf(log, x), runner)
    ensures var d, g := DeliveryOf(log, id).value, GoalOf(log, id.goal).value;
            var crashed := Restarted(log + more, AllIds(log + more), sidecars, runner, now);
            && DeliveryOf(crashed, id) == Some(if InHand(d) then AfterTakeover(d, g, Some(sidecars[id]), now) else d)
            && GoalOf(crashed, id.goal).Some?
            && (!InHand(d) ==> GoalOf(crashed, id.goal) == Some(g))
            && (d.status.Running? ==> GoalOf(crashed, id.goal) == Some(Touched(g, Recovery(d, g, sidecars[id]))))
  {
    hide Recovery, AfterTakeover, Restarted, AllIds, Legal, DeliveryOf, GoalOf, Touched;
    var all := AllIds(log + more);
    AllListed(log + more);
    forall x | x in all ensures GoalOf(log + more, x.goal).Some? {
      GoalKnown(log + more, x);
    }
    forall x: DeliveryId | x.goal == id.goal
      ensures DeliveryOf(log + more, x) == DeliveryOf(log, x) && GoalOf(log + more, x.goal) == GoalOf(log, x.goal)
    {
      UnrelatedKeeps(log, more, x);
    }
    RestartedEach(log + more, all, sidecars, runner, now);
    RestartedGoal(log + more, all, sidecars, runner, now, id);
  }
}
