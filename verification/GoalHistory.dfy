/** What every legal history of goals and deliveries satisfies. */
module GoalHistory {
  import opened FileSystem
  import opened UsageTotals
  import opened GoalLog

  // Counts taken from the log alone.

  function One(b: bool): nat {
    if b then 1 else 0
  }

  predicate Touches(e: Event, id: DeliveryId) {
    e.OfDelivery? && e.id == id
  }

  predicate AdvancesGoal(e: Event, goal: nat) {
    e.OfDelivery? && e.id.goal == goal && AdvanceOf(e.step).Advances?
  }

  function EventsOf(log: Log, id: DeliveryId): nat {
    if log == [] then 0 else EventsOf(log[..|log| - 1], id) + One(Touches(log[|log| - 1], id))
  }

  function AdvancesOf(log: Log, id: DeliveryId): nat {
    if log == [] then 0
    else AdvancesOf(log[..|log| - 1], id) + One(Touches(log[|log| - 1], id) && AdvanceOf(log[|log| - 1].step).Advances?)
  }

  /** The goal's own events and the delivery events that advanced it. */
  function GoalEventsOf(log: Log, goal: nat): nat {
    if log == [] then 0
    else
      var e := log[|log| - 1];
      GoalEventsOf(log[..|log| - 1], goal) + One(AdvancesGoal(e, goal) || (e.OfGoal? && e.goal == goal))
  }

  function AdvancesOn(log: Log, goal: nat): nat {
    if log == [] then 0 else AdvancesOn(log[..|log| - 1], goal) + One(AdvancesGoal(log[|log| - 1], goal))
  }

  /** A result recovered from its file for an occurrence whose schedule had advanced before its continuation. */
  function RepeatsOf(log: Log, id: DeliveryId): nat {
    if log == [] then 0
    else
      var before, e := log[..|log| - 1], log[|log| - 1];
      RepeatsOf(before, id)
      + One(Touches(e, id) && e.step.Complete? && e.step.recovered
            && DeliveryOf(before, id).Some? && DeliveryOf(before, id).value.continuation)
  }

  /** Claims that used up a retry. */
  function RetriesOf(log: Log, id: DeliveryId): nat {
    if log == [] then 0
    else
      var before, e := log[..|log| - 1], log[|log| - 1];
      RetriesOf(before, id)
      + One(Touches(e, id) && e.step.Claim? && DeliveryOf(before, id).Some?
            && DeliveryOf(before, id).value.consumeRetry)
  }

  // Revisions.

  lemma {:induction false} DeliveryRevision(log: Log, id: DeliveryId)
    requires Legal(log)
    ensures DeliveryOf(log, id).Some? ==> DeliveryOf(log, id).value.revision == EventsOf(log, id)
    ensures DeliveryOf(log, id).None? ==> EventsOf(log, id) == 0
  {
    if log != [] {
      DeliveryRevision(log[..|log| - 1], id);
    }
  }

  lemma {:induction false} GoalRevision(log: Log, goal: nat)
    requires Legal(log)
    ensures GoalOf(log, goal).Some? ==> GoalOf(log, goal).value.revision == GoalEventsOf(log, goal)
    ensures GoalOf(log, goal).Some? ==> GoalOf(log, goal).value.wakeCount == AdvancesOn(log, goal)
    ensures GoalOf(log, goal).None? ==> GoalEventsOf(log, goal) == AdvancesOn(log, goal) == 0
  {
    if log != [] {
      GoalRevision(log[..|log| - 1], goal);
    }
  }

  // Advancing the schedule.

  predicate Closed(d: Delivery) {
    d.status.Completed? || d.status.Materialized? || d.status.Denied? || (d.status.Failed? && d.terminal)
  }

  /** How often an occurrence has advanced the schedule, seen from its record. */
  predicate Accounted(d: Delivery, advances: nat, repeats: nat) {
    && (advances == 0 ==> !Already(d) && repeats == 0)
    && (advances >= 1 ==> d.continuation || Closed(d) || (d.status.Parked? && d.scheduleAdvanced))
    && advances <= 1 + repeats && repeats <= 1
    && (repeats == 1 ==> advances == 2 && Closed(d) && !d.status.Denied?)
  }

  predicate Ending(s: Step) {
    s.Complete? || s.Fail? || s.Deny? || s.Park?
  }

  lemma AccountedEnding(d: Delivery, g: Goal, s: Step, advances: nat, repeats: nat)
    requires Possible(d, g, s) && Accounted(d, advances, repeats) && Ending(s)
    ensures Accounted(Applied(d, s), advances + One(AdvanceOf(s).Advances?),
                      repeats + One(s.Complete? && s.recovered && d.continuation))
  {
  }

  lemma AccountedWaiting(d: Delivery, g: Goal, s: Step, advances: nat, repeats: nat)
    requires Possible(d, g, s) && Accounted(d, advances, repeats) && (s.Corrupt? || s.Block?)
    ensures Accounted(Applied(d, s), advances, repeats)
  {
    match s
    case Corrupt =>
    case Block(_, _, _, _) =>
  }

  lemma AccountedMoving(d: Delivery, g: Goal, s: Step, advances: nat, repeats: nat)
    requires Possible(d, g, s) && Accounted(d, advances, repeats) && !Ending(s)
    ensures Accounted(Applied(d, s), advances, repeats)
  {
    hide Concluded;
    if Concluding(s) {
      AccountedWaiting(d, g, s, advances, repeats);
    }
  }

  lemma AccountedStep(d: Delivery, g: Goal, s: Step, advances: nat, repeats: nat)
    requires Possible(d, g, s) && Accounted(d, advances, repeats)
    ensures Accounted(Applied(d, s), advances + One(AdvanceOf(s).Advances?),
                      repeats + One(s.Complete? && s.recovered && d.continuation))
  {
    if Ending(s) {
      AccountedEnding(d, g, s, advances, repeats);
    } else {
      AccountedMoving(d, g, s, advances, repeats);
    }
  }

  lemma {:induction false} AlwaysAccounted(log: Log, id: DeliveryId)
    requires Legal(log)
    ensures DeliveryOf(log, id).Some? ==> Accounted(DeliveryOf(log, id).value, AdvancesOf(log, id), RepeatsOf(log, id))
    ensures DeliveryOf(log, id).None? ==> AdvancesOf(log, id) == RepeatsOf(log, id) == 0
  {
    if log != [] {
      var before, e := log[..|log| - 1], log[|log| - 1];
      AlwaysAccounted(before, id);
      if Touches(e, id) && DeliveryOf(before, id).Some? {
        AccountedStep(DeliveryOf(before, id).value, GoalOf(before, id.goal).value, e.step,
                      AdvancesOf(before, id), RepeatsOf(before, id));
      }
    }
  }

  /** One occurrence advances its goal's schedule at most once, except that recovering a result
      for a continuation whose occurrence had advanced it before advances it a second time. */
  lemma AdvancesOncePerOccurrence(log: Log, id: DeliveryId)
    requires Legal(log)
    ensures AdvancesOf(log, id) <= 2 && (AdvancesOf(log, id) == 2 <==> RepeatsOf(log, id) == 1)
  {
    AlwaysAccounted(log, id);
  }

  // Attempts and closed occurrences.

  predicate Attempting(d: Delivery, retries: nat) {
    d.attempt == 1 + retries <= MAX_ATTEMPTS && (d.status.Pending? ==> d.attempt == 1 && !d.consumeRetry)
  }

  lemma OnlyClaimsRetry(d: Delivery, s: Step)
    requires !s.Claim?
    ensures Applied(d, s).attempt == d.attempt
  {
    match s
    case Complete(_, _, _, _) =>
    case Fail(_, _, _, _, _, _) =>
    case Block(_, _, _, _) =>
    case Deny(_, _, _, _) =>
    case Park(_, _, _) =>
    case _ =>
  }

  lemma PendingOnlyAtFirst(d: Delivery, s: Step)
    requires Applied(d, s).status.Pending?
    ensures d.status.Pending? && Applied(d, s).consumeRetry == d.consumeRetry
  {
    match s
    case SetPhase(_, _) =>
    case SetApprovalPhase(_, _) =>
    case Acknowledge =>
    case _ =>
  }

  lemma AttemptingStep(d: Delivery, g: Goal, s: Step, retries: nat)
    requires Possible(d, g, s) && Attempting(d, retries)
    ensures Attempting(Applied(d, s), retries + One(s.Claim? && d.consumeRetry))
    ensures d.attempt <= Applied(d, s).attempt
  {
    if !s.Claim? {
      OnlyClaimsRetry(d, s);
    }
    if Applied(d, s).status.Pending? {
      PendingOnlyAtFirst(d, s);
    }
  }

  lemma ClosedStep(d: Delivery, g: Goal, s: Step)
    requires Possible(d, g, s) && Closed(d)
    ensures Closed(Applied(d, s)) && AdvanceOf(s).Stays? && DeltaOf(s).keys == NO_USAGE.keys
    ensures s.Corrupt? || s.Materialize? || s.Acknowledge?
  {
  }

  /** The attempt number is one more than the retries used, and never exceeds the limit. */
  lemma {:induction false} AttemptsBounded(log: Log, id: DeliveryId)
    requires Legal(log)
    ensures DeliveryOf(log, id).Some? ==> Attempting(DeliveryOf(log, id).value, RetriesOf(log, id))
    ensures DeliveryOf(log, id).None? ==> RetriesOf(log, id) == 0
  {
    if log != [] {
      var before, e := log[..|log| - 1], log[|log| - 1];
      AttemptsBounded(before, id);
      if Touches(e, id) && DeliveryOf(before, id).Some? {
        AttemptingStep(DeliveryOf(before, id).value, GoalOf(before, id.goal).value, e.step, RetriesOf(before, id));
      }
    }
  }

  /** The stored flag is set only in a terminal status or on a failed delivery. */
  predicate FlagFits(d: Delivery) {
    d.terminal ==> TerminalStatus(d.status) || d.status.Failed?
  }

  lemma FlagFitsConcluded(d: Delivery, s: Step)
    requires Concluding(s)
    ensures FlagFits(Concluded(d, s))
  {
  }

  lemma FlagFitsStep(d: Delivery, s: Step)
    requires FlagFits(d)
    ensures FlagFits(Applied(d, s))
  {
    hide Concluded;
    if Concluding(s) {
      FlagFitsConcluded(d, s);
    }
  }

  lemma {:induction false} FlagFollows(log: Log, id: DeliveryId)
    requires Legal(log) && DeliveryOf(log, id).Some?
    ensures FlagFits(DeliveryOf(log, id).value)
  {
    var before, e := log[..|log| - 1], log[|log| - 1];
    if DeliveryOf(before, id).Some? {
      FlagFollows(before, id);
      if Touches(e, id) {
        FlagFitsStep(DeliveryOf(before, id).value, e.step);
      }
    }
  }

  function AddsOf(log: Log, id: DeliveryId): nat {
    if log == [] then 0 else AddsOf(log[..|log| - 1], id) + One(Touches(log[|log| - 1], id) && log[|log| - 1].step.Add?)
  }

  /** An occurrence is scheduled by one pending event, and by no second one. */
  lemma {:induction false} AddedOnce(log: Log, id: DeliveryId)
    requires Legal(log)
    ensures AddsOf(log, id) == One(DeliveryOf(log, id).Some?)
  {
    if log != [] {
      AddedOnce(log[..|log| - 1], id);
    }
  }

  lemma {:induction false} LegalBefore(log: Log, i: nat)
    requires Legal(log) && i < |log|
    ensures Legal(log[..i]) && Enabled(log[..i], log[i])
  {
    var n := |log| - 1;
    if i < n {
      LegalBefore(log[..n], i);
      assert log[..n][..i] == log[..i];
    }
  }

  /** An occurrence is claimed when it is new, and again only out of failed, interrupted or skipped. */
  lemma ClaimedAgainOnlyAtRest(log: Log, i: nat)
    requires Legal(log) && i < |log| && log[i].OfDelivery? && log[i].step.Claim?
    ensures DeliveryOf(log[..i], log[i].id).Some?
    ensures var d := DeliveryOf(log[..i], log[i].id).value;
            || (d.status.Pending? && EventsOf(log[..i], log[i].id) == 1)
            || ((d.status.Failed? || d.status.Interrupted? || d.status.Skipped?) && !Closed(d))
  {
    LegalBefore(log, i);
    DeliveryRevision(log[..i], log[i].id);
  }

  /** However the log goes on: the attempt never falls, and an occurrence that was completed,
      materialized, denied or finally failed stays closed and advances nothing any more. */
  lemma {:induction false} OnlyForward(log: Log, more: Log, id: DeliveryId)
    requires Legal(log + more) && DeliveryOf(log, id).Some?
    ensures DeliveryOf(log + more, id).Some?
    ensures DeliveryOf(log, id).value.attempt <= DeliveryOf(log + more, id).value.attempt
    ensures Closed(DeliveryOf(log, id).value) ==>
              Closed(DeliveryOf(log + more, id).value) && AdvancesOf(log + more, id) == AdvancesOf(log, id)
  {
    if more == [] {
      assert log + more == log;
    } else {
      var front, e := more[..|more| - 1], more[|more| - 1];
      assert (log + more)[..|log + more| - 1] == log + front;
      OnlyForward(log, front, id);
      AttemptsBounded(log + front, id);
      if Touches(e, id) {
        var d, g := DeliveryOf(log + front, id).value, GoalOf(log + front, id.goal).value;
        AttemptingStep(d, g, e.step, RetriesOf(log + front, id));
        if Closed(d) {
          ClosedStep(d, g, e.step);
        }
      }
    }
  }

  /** Events that count in a goal's revision. */
  predicate Counts(e: Event, goal: nat) {
    AdvancesGoal(e, goal) || (e.OfGoal? && e.goal == goal)
  }

  lemma {:induction false} CountedSince(log: Log, more: Log, goal: nat)
    ensures GoalEventsOf(log, goal) <= GoalEventsOf(log + more, goal)
    ensures GoalEventsOf(log, goal) == GoalEventsOf(log + more, goal) <==> forall e | e in more :: !Counts(e, goal)
  {
    if more == [] {
      assert log + more == log;
    } else {
      var front, e := more[..|more| - 1], more[|more| - 1];
      assert (log + more)[..|log + more| - 1] == log + front;
      assert e in more && forall x :: x in more <==> x in front || x == e;
      CountedSince(log, front, goal);
    }
  }

  lemma {:induction false} GoalStays(log: Log, more: Log, goal: nat)
    requires GoalOf(log, goal).Some?
    ensures GoalOf(log + more, goal).Some?
  {
    if more == [] {
      assert log + more == log;
    } else {
      assert (log + more)[..|log + more| - 1] == log + more[..|more| - 1];
      GoalStays(log, more[..|more| - 1], goal);
    }
  }

  /** An unchanged revision proves that no event of the goal, and no delivery that woke it, came in between. */
  lemma SameRevision(log: Log, more: Log, goal: nat)
    requires Legal(log + more) && GoalOf(log, goal).Some?
    ensures GoalOf(log + more, goal).Some?
    ensures GoalOf(log, goal).value.revision <= GoalOf(log + more, goal).value.revision
    ensures GoalOf(log, goal).value.revision == GoalOf(log + more, goal).value.revision
            <==> forall e | e in more :: !Counts(e, goal)
  {
    GoalStays(log, more, goal);
    CountedSince(log, more, goal);
    LegalPrefix(log, more);
    GoalRevision(log, goal);
    GoalRevision(log + more, goal);
  }

  lemma LegalPrefix(log: Log, more: Log)
    requires Legal(log + more)
    ensures Legal(log)
  {
    if more == [] {
      assert log + more == log;
    } else {
      LegalBefore(log + more, |log|);
      assert (log + more)[..|log|] == log;
    }
  }

  // Owners.

  lemma ConcludedOwner(d: Delivery, s: Step)
    requires Concluding(s)
    ensures Concluded(d, s).owner == d.owner
  {
    match s
    case Complete(_, _, _, _) =>
    case Corrupt =>
    case Fail(_, _, _, _, _, _) =>
    case Block(_, _, _, _) =>
    case Deny(_, _, _, _) =>
    case Park(_, _, _) =>
  }

  lemma AppliedOwner(d: Delivery, s: Step)
    ensures Applied(d, s).owner == d.owner
  {
    hide Concluded;
    if Concluding(s) {
      ConcludedOwner(d, s);
    }
  }

  /** An occurrence belongs to the owner its goal had when it was scheduled, and the goal's owner is the same ever after. */
  lemma {:induction false} GoalKnown(log: Log, id: DeliveryId)
    requires Legal(log) && DeliveryOf(log, id).Some?
    ensures GoalOf(log, id.goal).Some?
    ensures GoalOf(log, id.goal).value.owner == DeliveryOf(log, id).value.owner
    ensures DeliveryOf(log, id).value.owner.chat != ""
  {
    hide Applied;
    var before, e := log[..|log| - 1], log[|log| - 1];
    if DeliveryOf(before, id).Some? {
      GoalKnown(before, id);
      if Touches(e, id) {
        AppliedOwner(DeliveryOf(before, id).value, e.step);
      }
    }
  }

  /** A goal that is to be woken always has a chat to be woken in. */
  lemma {:induction false} OwnedWhenScheduled(log: Log, goal: nat)
    requires Legal(log) && GoalOf(log, goal).Some?
    ensures var g := GoalOf(log, goal).value; Owned(g.owner, g.wakeAt, g.every)
  {
    hide Applied;
    var before, e := log[..|log| - 1], log[|log| - 1];
    if GoalOf(before, goal).Some? {
      OwnedWhenScheduled(before, goal);
      if e.OfDelivery? && e.id.goal == goal && !e.step.Add? {
        GoalKnown(before, e.id);
      }
    }
  }

  // Answers.

  function AnswersOf(log: Log, id: DeliveryId): nat {
    if log == [] then 0 else AnswersOf(log[..|log| - 1], id) + One(Touches(log[|log| - 1], id) && log[|log| - 1].step.Answer?)
  }

  lemma ConcludedAnswered(d: Delivery, s: Step)
    requires Concluding(s)
    ensures Concluded(d, s).answered == d.answered
  {
    match s
    case Complete(_, _, _, _) =>
    case Corrupt =>
    case Fail(_, _, _, _, _, _) =>
    case Block(_, _, _, _) =>
    case Deny(_, _, _, _) =>
    case Park(_, _, _) =>
  }

  lemma RetriedAnswered(d: Delivery, s: Step)
    requires s.Interrupt? || s.Skip? || s.Defer? || s.Drain?
    ensures Applied(d, s).answered == d.answered
  {
    hide Concluded;
  }

  lemma PhasedAnswered(d: Delivery, s: Step)
    requires s.SetPhase? || s.SetApprovalPhase? || s.RestoreWait?
    ensures Applied(d, s).answered == d.answered
  {
    hide Concluded;
  }

  lemma MovedAnswered(d: Delivery, s: Step)
    requires s.Add? || s.Claim? || s.Begin? || s.Remind? || s.Acknowledge? || s.Materialize?
    ensures Applied(d, s).answered == d.answered
  {
    hide Concluded;
  }

  lemma AnswerAnswers(d: Delivery, s: Step)
    requires s.Answer?
    ensures Applied(d, s).answered
  {
  }

  lemma AppliedAnswered(d: Delivery, s: Step)
    ensures Applied(d, s).answered == (d.answered || s.Answer?)
  {
    hide Concluded, Applied;
    if Concluding(s) {
      ConcludedAnswered(d, s);
      ConcludedIs(d, s);
    } else if s.Interrupt? || s.Skip? || s.Defer? || s.Drain? {
      RetriedAnswered(d, s);
    } else if s.SetPhase? || s.SetApprovalPhase? || s.RestoreWait? {
      PhasedAnswered(d, s);
    } else if !s.Answer? {
      MovedAnswered(d, s);
    } else {
      AnswerAnswers(d, s);
    }
  }

  lemma ConcludedIs(d: Delivery, s: Step)
    requires Concluding(s)
    ensures Applied(d, s) == Concluded(d, s) && !s.Answer?
  {
    hide Concluded;
  }

  /** The mark an answer leaves is never taken away, so an occurrence is answered at most once,
      however many questions it asks. */
  lemma {:induction false} AnsweredOnce(log: Log, id: DeliveryId)
    requires Legal(log)
    ensures DeliveryOf(log, id).Some? ==> AnswersOf(log, id) == One(DeliveryOf(log, id).value.answered)
    ensures DeliveryOf(log, id).None? ==> AnswersOf(log, id) == 0
  {
    hide Applied;
    if log != [] {
      var before, e := log[..|log| - 1], log[|log| - 1];
      AnsweredOnce(before, id);
      if Touches(e, id) && DeliveryOf(before, id).Some? {
        AppliedAnswered(DeliveryOf(before, id).value, e.step);
      }
    }
  }

  // Runs.

  /** How often an occurrence was begun. */
  function RunsOf(log: Log, id: DeliveryId): nat {
    if log == [] then 0 else RunsOf(log[..|log| - 1], id) + One(Touches(log[|log| - 1], id) && log[|log| - 1].step.Begin?)
  }

  /** It is in line to be begun. */
  predicate Lined(d: Delivery) {
    d.status.Pending? || d.status.Claimed?
  }

  predicate FreeClaim(d: Delivery, s: Step) {
    s.Claim? && !d.status.Pending? && !d.consumeRetry
  }

  predicate Restart(d: Delivery, s: Step) {
    s.Begin? && !Lined(d)
  }

  predicate Drops(d: Delivery, s: Step) {
    !s.Begin? && Lined(d) && !Lined(Applied(d, s))
  }

  /** Claims after the first that used no retry. */
  function FreeClaimsOf(log: Log, id: DeliveryId): nat {
    if log == [] then 0
    else
      var before, e := log[..|log| - 1], log[|log| - 1];
      FreeClaimsOf(before, id) + One(Touches(e, id) && DeliveryOf(before, id).Some? && FreeClaim(DeliveryOf(before, id).value, e.step))
  }

  /** Begins without a claim: straight out of failed or interrupted. */
  function RestartsOf(log: Log, id: DeliveryId): nat {
    if log == [] then 0
    else
      var before, e := log[..|log| - 1], log[|log| - 1];
      RestartsOf(before, id) + One(Touches(e, id) && DeliveryOf(before, id).Some? && Restart(DeliveryOf(before, id).value, e.step))
  }

  /** Times it was in line and left without being begun. */
  function DroppedOf(log: Log, id: DeliveryId): nat {
    if log == [] then 0
    else
      var before, e := log[..|log| - 1], log[|log| - 1];
      DroppedOf(before, id) + One(Touches(e, id) && DeliveryOf(before, id).Some? && Drops(DeliveryOf(before, id).value, e.step))
  }

  lemma ConcludedNotLined(d: Delivery, s: Step)
    requires Concluding(s)
    ensures !Lined(Concluded(d, s))
  {
  }

  /** Only a claim puts an occurrence in line. */
  lemma LinedByClaim(d: Delivery, s: Step)
    requires !s.Claim? && Lined(Applied(d, s))
    ensures Lined(d) && !s.Begin?
  {
    hide Concluded;
    if Concluding(s) {
      ConcludedNotLined(d, s);
    }
  }

  lemma RunsStep(d: Delivery, g: Goal, s: Step, retries: nat)
    requires Possible(d, g, s) && Attempting(d, retries)
    ensures One(s.Begin?) + One(Drops(d, s)) + One(Lined(Applied(d, s))) - One(Lined(d))
            == Applied(d, s).attempt - d.attempt + One(FreeClaim(d, s)) + One(Restart(d, s))
    ensures Restart(d, s) ==> d.status.Failed? || d.status.Interrupted?
  {
    hide Concluded;
    if !s.Claim? {
      OnlyClaimsRetry(d, s);
      if Lined(Applied(d, s)) {
        LinedByClaim(d, s);
      }
    }
  }

  ghost predicate Balanced(log: Log, id: DeliveryId) {
    && (DeliveryOf(log, id).Some? ==>
          RunsOf(log, id) + DroppedOf(log, id) + One(Lined(DeliveryOf(log, id).value))
          == DeliveryOf(log, id).value.attempt + FreeClaimsOf(log, id) + RestartsOf(log, id))
    && (DeliveryOf(log, id).None? ==> RunsOf(log, id) == DroppedOf(log, id) == FreeClaimsOf(log, id) == RestartsOf(log, id) == 0)
  }

  lemma RunCounts(before: Log, e: Event, id: DeliveryId)
    ensures var log, d := before + [e], DeliveryOf(before, id);
            && RunsOf(log, id) == RunsOf(before, id) + One(Touches(e, id) && e.step.Begin?)
            && FreeClaimsOf(log, id) == FreeClaimsOf(before, id) + One(Touches(e, id) && d.Some? && FreeClaim(d.value, e.step))
            && RestartsOf(log, id) == RestartsOf(before, id) + One(Touches(e, id) && d.Some? && Restart(d.value, e.step))
            && DroppedOf(log, id) == DroppedOf(before, id) + One(Touches(e, id) && d.Some? && Drops(d.value, e.step))
            && DeliveryOf(log, id) == DeliveryStep(d, id, e)
  {
    hide FreeClaim, Restart, Drops;
    assert (before + [e])[..|before|] == before;
  }

  lemma BalancedStep(before: Log, e: Event, id: DeliveryId)
    requires Legal(before) && Enabled(before, e) && Balanced(before, id)
    ensures Balanced(before + [e], id)
  {
    hide Applied, Possible, FreeClaim, Restart, Drops, RunsOf, FreeClaimsOf, RestartsOf, DroppedOf, DeliveryOf, Legal;
    RunCounts(before, e, id);
    AttemptsBounded(before, id);
    if Touches(e, id) && DeliveryOf(before, id).Some? {
      RunsStep(DeliveryOf(before, id).value, GoalOf(before, id.goal).value, e.step, RetriesOf(before, id));
    }
  }

  /** The runs of an occurrence, in every legal log: as many as its attempt, its free claims and its
      restarts together, less the times it was in line and was not begun.  So there are more runs than
      attempts if, and only if, the free claims and restarts outnumber those times; and without either
      there are never more. */
  lemma {:induction false} RunsAccounted(log: Log, id: DeliveryId)
    requires Legal(log)
    ensures Balanced(log, id)
    ensures DeliveryOf(log, id).Some? ==>
              var d := DeliveryOf(log, id).value;
              var unbegun := DroppedOf(log, id) + One(Lined(d));
              && RunsOf(log, id) + unbegun == d.attempt + FreeClaimsOf(log, id) + RestartsOf(log, id)
              && (RunsOf(log, id) > d.attempt <==> FreeClaimsOf(log, id) + RestartsOf(log, id) > unbegun)
  {
    if log != [] {
      hide RunsOf, FreeClaimsOf, RestartsOf, DroppedOf, Enabled;
      var before, e := log[..|log| - 1], log[|log| - 1];
      RunsAccounted(before, id);
      BalancedStep(before, e, id);
      assert before + [e] == log;
    }
  }

  /** A failure that leaves the occurrence open costs a retry. */
  predicate FailureCosts(d: Delivery) {
    d.status.Failed? && !d.terminal ==> d.consumeRetry
  }

  lemma ConcludedCosts(d: Delivery, s: Step)
    requires Concluding(s)
    ensures FailureCosts(Concluded(d, s))
  {
  }

  lemma CostsStep(d: Delivery, s: Step)
    requires FailureCosts(d)
    ensures FailureCosts(Applied(d, s))
  {
    hide Concluded;
    if Concluding(s) {
      ConcludedCosts(d, s);
    }
  }

  lemma {:induction false} FailuresCost(log: Log, id: DeliveryId)
    requires Legal(log) && DeliveryOf(log, id).Some?
    ensures FailureCosts(DeliveryOf(log, id).value)
  {
    hide Applied;
    var before, e := log[..|log| - 1], log[|log| - 1];
    if DeliveryOf(before, id).Some? {
      FailuresCost(before, id);
      if Touches(e, id) {
        CostsStep(DeliveryOf(before, id).value, e.step);
      }
    }
  }

  /** A claim is free only out of skipped, or out of an interruption that costs nothing. */
  lemma FreeClaimsAre(log: Log, i: nat)
    requires Legal(log) && i < |log| && log[i].OfDelivery? && DeliveryOf(log[..i], log[i].id).Some?
    requires FreeClaim(DeliveryOf(log[..i], log[i].id).value, log[i].step)
    ensures DeliveryOf(log[..i], log[i].id).value.status.Skipped? || DeliveryOf(log[..i], log[i].id).value.status.Interrupted?
  {
    LegalBefore(log, i);
    FailuresCost(log[..i], log[i].id);
  }

  // The goal's counters are the sums over its occurrences.

  /** The occurrences of a goal, in the order they were scheduled. */
  function IdsOf(log: Log, goal: nat): seq<DeliveryId> {
    if log == [] then []
    else
      var before, e := IdsOf(log[..|log| - 1], goal), log[|log| - 1];
      if e.OfDelivery? && e.id.goal == goal && e.step.Add? then before + [e.id] else before
  }

  lemma {:induction false} IdsListed(log: Log, goal: nat)
    requires Legal(log)
    ensures Distinct(IdsOf(log, goal))
    ensures forall id :: id in IdsOf(log, goal) <==> id.goal == goal && DeliveryOf(log, id).Some?
  {
    if log != [] {
      var before, e := log[..|log| - 1], log[|log| - 1];
      IdsListed(before, goal);
      var ids := IdsOf(before, goal);
      if e.OfDelivery? && e.id.goal == goal && e.step.Add? {
        assert e.id !in ids;
        DistinctConcat(ids, [e.id]);
      }
    }
  }

  lemma SharesUpdate(peak: bool, ids: seq<DeliveryId>, shares: seq<int>, next: seq<int>, id: DeliveryId, v: int)
    requires Distinct(ids) && id in ids && |shares| == |next| == |ids|
    requires forall i :: 0 <= i < |ids| ==> next[i] == if ids[i] == id then Combine(peak, shares[i], v) else shares[i]
    ensures Gathered(peak, next) == Combine(peak, Gathered(peak, shares), v)
  {
    var i :| 0 <= i < |ids| && ids[i] == id;
    assert next == shares[i := Combine(peak, shares[i], v)];
    GatheredUpdate(peak, shares, i, v);
  }

  function AdvanceShares(log: Log, ids: seq<DeliveryId>): seq<int> {
    seq(|ids|, i requires 0 <= i < |ids| => AdvancesOf(log, ids[i]))
  }

  lemma Unseen(log: Log, id: DeliveryId)
    requires Legal(log) && DeliveryOf(log, id).None?
    ensures AdvancesOf(log, id) == 0 && DeltasOf(log, id) == []
  {
    AlwaysAccounted(log, id);
    if log != [] {
      Unseen(log[..|log| - 1], id);
    }
  }

  /** The event is the first of an occurrence that is new to the list, or one of a listed occurrence. */
  ghost predicate Fits(before: Log, e: Event, goal: nat) {
    && Distinct(IdsOf(before, goal)) && (forall id | id in IdsOf(before, goal) :: id.goal == goal)
    && (e.OfDelivery? && e.id.goal == goal ==>
          if e.step.Add? then e.id !in IdsOf(before, goal) && AdvancesOf(before, e.id) == 0 && DeltasOf(before, e.id) == []
          else e.id in IdsOf(before, goal))
  }

  lemma LegalFits(before: Log, e: Event, goal: nat)
    requires Legal(before) && Enabled(before, e)
    ensures Fits(before, e, goal)
  {
    IdsListed(before, goal);
    if e.OfDelivery? && e.step.Add? {
      Unseen(before, e.id);
    }
  }

  lemma AdvanceStep(before: Log, e: Event, id: DeliveryId, goal: nat)
    ensures AdvancesOf(before + [e], id) == AdvancesOf(before, id) + One(Touches(e, id) && AdvanceOf(e.step).Advances?)
    ensures AdvancesOn(before + [e], goal) == AdvancesOn(before, goal) + One(AdvancesGoal(e, goal))
    ensures IdsOf(before + [e], goal)
            == if e.OfDelivery? && e.id.goal == goal && e.step.Add? then IdsOf(before, goal) + [e.id] else IdsOf(before, goal)
  {
    assert (before + [e])[..|before|] == before;
  }

  lemma AdvanceSharesStep(before: Log, e: Event, ids: seq<DeliveryId>)
    ensures var shares, next := AdvanceShares(before, ids), AdvanceShares(before + [e], ids);
            forall i | 0 <= i < |ids| ::
              next[i] == shares[i] + One(Touches(e, ids[i]) && AdvanceOf(e.step).Advances?)
  {
    forall i | 0 <= i < |ids|
      ensures AdvanceShares(before + [e], ids)[i]
              == AdvanceShares(before, ids)[i] + One(Touches(e, ids[i]) && AdvanceOf(e.step).Advances?)
    {
      AdvanceStep(before, e, ids[i], 0);
    }
  }

  lemma WakesGatherStep(before: Log, e: Event, goal: nat)
    requires Fits(before, e, goal) && AdvancesOn(before, goal) == Gathered(false, AdvanceShares(before, IdsOf(before, goal)))
    ensures var log := before + [e]; AdvancesOn(log, goal) == Gathered(false, AdvanceShares(log, IdsOf(log, goal)))
  {
    hide AdvancesOf, AdvancesOn, IdsOf, Gathered, DeltasOf;
    var log, ids := before + [e], IdsOf(before, goal);
    var shares, next := AdvanceShares(before, ids), AdvanceShares(log, ids);
    AdvanceStep(before, e, DeliveryId(goal, 0), goal);
    AdvanceSharesStep(before, e, ids);
    if !e.OfDelivery? || e.id.goal != goal {
      assert next == shares;
    } else if e.step.Add? {
      AdvanceStep(before, e, e.id, goal);
      assert AdvanceShares(log, ids + [e.id]) == shares + [0];
      GatheredAdd(false, shares, 0);
    } else {
      SharesUpdate(false, ids, shares, next, e.id, One(AdvanceOf(e.step).Advances?));
    }
  }

  /** A goal has been woken as often as its occurrences advanced its schedule. */
  lemma {:induction false} WakesGather(log: Log, goal: nat)
    requires Legal(log)
    ensures AdvancesOn(log, goal) == Gathered(false, AdvanceShares(log, IdsOf(log, goal)))
  {
    if log != [] {
      var before, e := log[..|log| - 1], log[|log| - 1];
      WakesGather(before, goal);
      LegalFits(before, e, goal);
      assert log == before + [e];
      WakesGatherStep(before, e, goal);
    }
  }

  /** How many of the listed occurrences have advanced the schedule. */
  function AdvancedAmong(log: Log, ids: seq<DeliveryId>): nat {
    if ids == [] then 0 else AdvancedAmong(log, ids[..|ids| - 1]) + One(AdvancesOf(log, ids[|ids| - 1]) >= 1)
  }

  function RepeatsAmong(log: Log, ids: seq<DeliveryId>): nat {
    if ids == [] then 0 else RepeatsAmong(log, ids[..|ids| - 1]) + RepeatsOf(log, ids[|ids| - 1])
  }

  lemma {:induction false} GatheredAdvances(log: Log, ids: seq<DeliveryId>)
    requires Legal(log)
    ensures Gathered(false, AdvanceShares(log, ids)) == AdvancedAmong(log, ids) + RepeatsAmong(log, ids)
  {
    if ids != [] {
      var n := |ids| - 1;
      GatheredAdvances(log, ids[..n]);
      AlwaysAccounted(log, ids[n]);
      assert AdvanceShares(log, ids)[..n] == AdvanceShares(log, ids[..n]);
    }
  }

  /** A goal's wake count is the number of its occurrences that advanced it, plus one for every
      continuation whose result was recovered after its occurrence had advanced it already. */
  lemma WakeCount(log: Log, goal: nat)
    requires Legal(log) && GoalOf(log, goal).Some?
    ensures GoalOf(log, goal).value.wakeCount == AdvancedAmong(log, IdsOf(log, goal)) + RepeatsAmong(log, IdsOf(log, goal))
  {
    GoalRevision(log, goal);
    WakesGather(log, goal);
    GatheredAdvances(log, IdsOf(log, goal));
  }

  // Usage.

  function DeltasOf(log: Log, id: DeliveryId): seq<Usage> {
    if log == [] then []
    else
      var before, e := DeltasOf(log[..|log| - 1], id), log[|log| - 1];
      if Touches(e, id) then before + [DeltaOf(e.step)] else before
  }

  function DeltasOn(log: Log, goal: nat): seq<Usage> {
    if log == [] then []
    else
      var before, e := DeltasOn(log[..|log| - 1], goal), log[|log| - 1];
      if e.OfDelivery? && e.id.goal == goal then before + [DeltaOf(e.step)] else before
  }

  function UsageShares(log: Log, ids: seq<DeliveryId>, k: Counter): seq<int> {
    seq(|ids|, i requires 0 <= i < |ids| => SumOf(DeltasOf(log, ids[i]), k))
  }

  lemma ShareStep(before: Log, e: Event, id: DeliveryId, k: Counter)
    ensures SumOf(DeltasOf(before + [e], id), k)
            == if Touches(e, id) then Combine(Peak(k), SumOf(DeltasOf(before, id), k), Value(DeltaOf(e.step), k))
               else SumOf(DeltasOf(before, id), k)
  {
    assert (before + [e])[..|before|] == before;
    if Touches(e, id) {
      SumAppend(DeltasOf(before, id), DeltaOf(e.step), k);
    }
  }

  /** The shares after an event: the one it touches grows, and a new occurrence starts from nothing. */
  lemma UsageSharesStep(before: Log, e: Event, ids: seq<DeliveryId>, k: Counter)
    ensures var shares, next := UsageShares(before, ids, k), UsageShares(before + [e], ids, k);
            forall i | 0 <= i < |ids| ::
              next[i] == if Touches(e, ids[i]) then Combine(Peak(k), shares[i], Value(DeltaOf(e.step), k)) else shares[i]
  {
    forall i | 0 <= i < |ids|
      ensures UsageShares(before + [e], ids, k)[i]
              == if Touches(e, ids[i]) then Combine(Peak(k), UsageShares(before, ids, k)[i], Value(DeltaOf(e.step), k))
                 else UsageShares(before, ids, k)[i]
    {
      ShareStep(before, e, ids[i], k);
    }
  }

  lemma UsageSharesNew(before: Log, e: Event, ids: seq<DeliveryId>, k: Counter)
    requires e.OfDelivery? && e.step.Add? && e.id !in ids && DeltasOf(before, e.id) == []
    ensures UsageShares(before + [e], ids + [e.id], k) == UsageShares(before, ids, k) + [Combine(Peak(k), 0, 0)]
  {
    UsageSharesStep(before, e, ids, k);
    ShareStep(before, e, e.id, k);
  }

  lemma UsageGathersNew(before: Log, e: Event, goal: nat, k: Counter)
    requires Fits(before, e, goal) && e.OfDelivery? && e.id.goal == goal && e.step.Add?
    requires SumOf(DeltasOn(before, goal), k) == Gathered(Peak(k), UsageShares(before, IdsOf(before, goal), k))
    ensures var log := before + [e]; SumOf(DeltasOn(log, goal), k) == Gathered(Peak(k), UsageShares(log, IdsOf(log, goal), k))
  {
    var ids, deltas := IdsOf(before, goal), DeltasOn(before, goal);
    var shares := UsageShares(before, ids, k);
    NewEvent(before, e, goal);
    SumAppend(deltas, NO_USAGE, k);
    UsageSharesNew(before, e, ids, k);
    GatheredAdd(Peak(k), shares, Combine(Peak(k), 0, 0));
  }

  lemma NewEvent(before: Log, e: Event, goal: nat)
    requires e.OfDelivery? && e.id.goal == goal && e.step.Add?
    ensures DeltasOn(before + [e], goal) == DeltasOn(before, goal) + [NO_USAGE]
    ensures IdsOf(before + [e], goal) == IdsOf(before, goal) + [e.id]
  {
    assert (before + [e])[..|before|] == before;
  }

  lemma UsageGathersMore(before: Log, e: Event, goal: nat, k: Counter)
    requires Fits(before, e, goal) && (e.OfDelivery? && e.id.goal == goal ==> !e.step.Add?)
    requires SumOf(DeltasOn(before, goal), k) == Gathered(Peak(k), UsageShares(before, IdsOf(before, goal), k))
    ensures var log := before + [e]; SumOf(DeltasOn(log, goal), k) == Gathered(Peak(k), UsageShares(log, IdsOf(log, goal), k))
  {
    var log, ids := before + [e], IdsOf(before, goal);
    var shares, next := UsageShares(before, ids, k), UsageShares(log, ids, k);
    assert log[..|before|] == before;
    UsageSharesStep(before, e, ids, k);
    if e.OfDelivery? && e.id.goal == goal {
      var delta := DeltaOf(e.step);
      SumAppend(DeltasOn(before, goal), delta, k);
      SharesUpdate(Peak(k), ids, shares, next, e.id, Value(delta, k));
    } else {
      assert next == shares;
    }
  }

  lemma {:induction false} UsageGathers(log: Log, goal: nat, k: Counter)
    requires Legal(log)
    ensures SumOf(DeltasOn(log, goal), k) == Gathered(Peak(k), UsageShares(log, IdsOf(log, goal), k))
  {
    if log != [] {
      var before, e := log[..|log| - 1], log[|log| - 1];
      UsageGathers(before, goal, k);
      LegalFits(before, e, goal);
      assert log == before + [e];
      if e.OfDelivery? && e.id.goal == goal && e.step.Add? {
        UsageGathersNew(before, e, goal, k);
      } else {
        UsageGathersMore(before, e, goal, k);
      }
    }
  }

  lemma NothingStored()
    ensures Stored(NO_USAGE)
  {
    assert Bounded(NO_USAGE).values == NO_USAGE.values;
  }

  // Both folds keep the running total of the receipts they see.

  /** Every delivery event comes after its goal was created. */
  ghost predicate Orderly(log: Log) {
    log == [] || (Orderly(log[..|log| - 1])
                  && (log[|log| - 1].OfDelivery? ==> GoalOf(log[..|log| - 1], log[|log| - 1].id.goal).Some?))
  }

  lemma {:induction false} LegalOrderly(log: Log)
    requires Legal(log)
    ensures Orderly(log)
  {
    if log != [] {
      LegalOrderly(log[..|log| - 1]);
    }
  }

  lemma {:induction false} GoalTotalIs(log: Log, goal: nat)
    requires Orderly(log)
    ensures GoalOf(log, goal).Some? ==> GoalOf(log, goal).value.usage == TotalOf(DeltasOn(log, goal))
    ensures GoalOf(log, goal).None? ==> DeltasOn(log, goal) == []
  {
    hide UsageTotals.Merged;
    if log != [] {
      var before, e := log[..|log| - 1], log[|log| - 1];
      GoalTotalIs(before, goal);
      if e.OfDelivery? && e.id.goal == goal {
        TotalAppend(DeltasOn(before, goal), DeltaOf(e.step));
      }
    }
  }

  lemma {:induction false} DeliveryTotalIs(log: Log, id: DeliveryId)
    requires Legal(log)
    ensures DeliveryOf(log, id).Some? ==> DeliveryOf(log, id).value.usage == TotalOf(DeltasOf(log, id))
    ensures DeliveryOf(log, id).None? ==> DeltasOf(log, id) == []
  {
    hide UsageTotals.Merged;
    if log != [] {
      var before, e := log[..|log| - 1], log[|log| - 1];
      DeliveryTotalIs(before, id);
      if Touches(e, id) {
        TotalAppend(DeltasOf(before, id), DeltaOf(e.step));
        if DeliveryOf(before, id).Some? {
          PossibleReceipt(DeliveryOf(before, id).value, GoalOf(before, id.goal).value, e.step);
          AppliedUsage(DeliveryOf(before, id).value, e.step);
        }
      }
    }
  }

  lemma PossibleReceipt(d: Delivery, g: Goal, s: Step)
    requires Possible(d, g, s)
    ensures Ending(s) || s.Block? ==> Receivable(d, s.receipt)
  {
  }

  predicate Receipted(s: Step) {
    (Ending(s) || s.Block?) && s.receipt.delta.keys != []
  }

  lemma ConcludedTotal(d: Delivery, s: Step)
    requires Concluding(s)
    ensures Concluded(d, s).usage == if Receipted(s) then s.receipt.total else d.usage
  {
  }

  lemma AppliedTotal(d: Delivery, s: Step)
    ensures Applied(d, s).usage == if Receipted(s) then s.receipt.total else d.usage
  {
    hide Concluded;
    if Concluding(s) {
      ConcludedTotal(d, s);
    }
  }

  lemma AppliedUsage(d: Delivery, s: Step)
    requires Ending(s) || s.Block? ==> Receivable(d, s.receipt)
    ensures Applied(d, s).usage == if DeltaOf(s).keys == [] then d.usage else Merged(d.usage, DeltaOf(s))
  {
    AppliedTotal(d, s);
  }

  ghost predicate Metered(log: Log) {
    forall i :: 0 <= i < |log| && log[i].OfDelivery? ==> Within(DeltaOf(log[i].step))
  }

  lemma LastMetered(log: Log)
    requires Legal(log) && log != [] && log[|log| - 1].OfDelivery?
    ensures Within(DeltaOf(log[|log| - 1].step))
  {
    var before, e := log[..|log| - 1], log[|log| - 1];
    NothingStored();
    if !e.step.Add? {
      PossibleReceipt(DeliveryOf(before, e.id).value, GoalOf(before, e.id.goal).value, e.step);
    }
    StoredWithin(DeltaOf(e.step));
  }

  lemma {:induction false} LegalMetered(log: Log)
    requires Legal(log)
    ensures Metered(log)
  {
    hide UsageTotals.Within, Possible;
    if log != [] {
      LegalMetered(log[..|log| - 1]);
      if log[|log| - 1].OfDelivery? {
        LastMetered(log);
      }
    }
  }

  lemma {:induction false} DeltasWithin(log: Log, id: DeliveryId, goal: nat)
    requires Metered(log)
    ensures forall d | d in DeltasOn(log, goal) :: Within(d)
    ensures forall d | d in DeltasOf(log, id) :: Within(d)
  {
    if log != [] {
      DeltasWithin(log[..|log| - 1], id, goal);
    }
  }

  lemma {:induction false} CountersAtMost(log: Log, id: DeliveryId)
    ensures forall k | k in CountersOf(DeltasOf(log, id)) :: k in CountersOf(DeltasOn(log, id.goal))
  {
    if log != [] {
      var before, e := log[..|log| - 1], log[|log| - 1];
      CountersAtMost(before, id);
      if e.OfDelivery? && e.id.goal == id.goal {
        CountersMembers(DeltasOn(before, id.goal), DeltaOf(e.step));
        CountersMembers(DeltasOf(before, id), DeltaOf(e.step));
      }
    }
  }

  /** The counter has its place in the goal's total and in that of every occurrence that reported it. */
  ghost predicate AllSeated(log: Log, goal: nat, k: Counter) {
    Seated(DeltasOn(log, goal), k) && forall id | id in IdsOf(log, goal) :: Seated(DeltasOf(log, id), k)
  }

  /** A goal with no more than forty counters has room for all of them. */
  lemma FewCounters(log: Log, goal: nat, k: Counter)
    requires Legal(log) && |CountersOf(DeltasOn(log, goal))| <= MAX_KEYS
    ensures AllSeated(log, goal, k)
  {
    IdsListed(log, goal);
    LegalMetered(log);
    forall id | id in IdsOf(log, goal) ensures Seated(DeltasOf(log, id), k) {
      DeltasWithin(log, id, goal);
      CountersAtMost(log, id);
      CountersDistinct(DeltasOf(log, id));
      var all := set c | c in CountersOf(DeltasOn(log, goal));
      DistinctSize(CountersOf(DeltasOf(log, id)), all);
      ListedSize(CountersOf(DeltasOn(log, goal)));
    }
  }

  function TotalShares(log: Log, ids: seq<DeliveryId>, k: Counter): seq<int>
    requires forall id | id in ids :: DeliveryOf(log, id).Some?
  {
    seq(|ids|, i requires 0 <= i < |ids| => Value(DeliveryOf(log, ids[i]).value.usage, k))
  }

  /** What the clamp and the limit of forty counters leave of a goal's receipts. */
  lemma GoalTotal(log: Log, goal: nat, k: Counter)
    requires Legal(log) && GoalOf(log, goal).Some?
    ensures Value(GoalOf(log, goal).value.usage, k) == Held(DeltasOn(log, goal), k)
    ensures Value(GoalOf(log, goal).value.usage, k) == SumOf(DeltasOn(log, goal), k) <==> Exact(DeltasOn(log, goal), k)
  {
    LegalOrderly(log);
    GoalTotalIs(log, goal);
    LegalMetered(log);
    DeltasWithin(log, DeliveryId(goal, 0), goal);
    TotalsExact(DeltasOn(log, goal));
  }

  lemma DeliveryTotal(log: Log, id: DeliveryId, k: Counter)
    requires Legal(log) && DeliveryOf(log, id).Some?
    ensures Value(DeliveryOf(log, id).value.usage, k) == Held(DeltasOf(log, id), k)
    ensures Value(DeliveryOf(log, id).value.usage, k) == SumOf(DeltasOf(log, id), k) <==> Exact(DeltasOf(log, id), k)
  {
    DeliveryTotalIs(log, id);
    LegalMetered(log);
    DeltasWithin(log, id, id.goal);
    TotalsExact(DeltasOf(log, id));
  }

  /** What each occurrence had received before its last receipt. */
  function RestShares(log: Log, ids: seq<DeliveryId>, k: Counter): seq<int> {
    seq(|ids|, i requires 0 <= i < |ids| => Rest(DeltasOf(log, ids[i]), k))
  }

  lemma RestStep(before: Log, e: Event, id: DeliveryId, k: Counter)
    ensures Rest(DeltasOf(before + [e], id), k)
            == if Touches(e, id) && DeltaOf(e.step).keys != [] then SumOf(DeltasOf(before, id), k) else Rest(DeltasOf(before, id), k)
  {
    assert (before + [e])[..|before|] == before;
    if Touches(e, id) {
      RestAppend(DeltasOf(before, id), DeltaOf(e.step), k);
    }
  }

  lemma WholeRestStep(before: Log, e: Event, goal: nat, k: Counter)
    ensures Rest(DeltasOn(before + [e], goal), k)
            == if e.OfDelivery? && e.id.goal == goal && DeltaOf(e.step).keys != [] then SumOf(DeltasOn(before, goal), k)
               else Rest(DeltasOn(before, goal), k)
  {
    assert (before + [e])[..|before|] == before;
    if e.OfDelivery? && e.id.goal == goal {
      RestAppend(DeltasOn(before, goal), DeltaOf(e.step), k);
    }
  }

  lemma RestSharesStep(before: Log, e: Event, ids: seq<DeliveryId>, k: Counter)
    requires Legal(before)
    ensures |RestShares(before + [e], ids, k)| == |RestShares(before, ids, k)| == |UsageShares(before, ids, k)| == |ids|
    ensures var rests, next := RestShares(before, ids, k), RestShares(before + [e], ids, k);
            if e.OfDelivery? && DeltaOf(e.step).keys != []
            then forall i | 0 <= i < |ids| :: next[i] <= UsageShares(before, ids, k)[i]
            else next == rests
  {
    forall i | 0 <= i < |ids|
      ensures RestShares(before + [e], ids, k)[i] <= UsageShares(before, ids, k)[i]
      ensures !(e.OfDelivery? && DeltaOf(e.step).keys != []) ==>
                RestShares(before + [e], ids, k)[i] == RestShares(before, ids, k)[i]
    {
      RestStep(before, e, ids[i], k);
      LegalMetered(before);
      DeltasWithin(before, ids[i], ids[i].goal);
      RestAtMost(DeltasOf(before, ids[i]), k);
    }
  }

  lemma RestsGatherStep(before: Log, e: Event, goal: nat, k: Counter)
    requires Legal(before) && Fits(before, e, goal) && !Peak(k) && e.OfDelivery? && e.id.goal == goal
    requires Gathered(false, RestShares(before, IdsOf(before, goal), k)) <= Rest(DeltasOn(before, goal), k)
    ensures var log := before + [e];
            Gathered(false, RestShares(log, IdsOf(log, goal), k)) <= Rest(DeltasOn(log, goal), k)
  {
    hide RestShares, UsageShares, UsageTotals.Rest, DeltasOn, DeltasOf, UsageTotals.Gathered, IdsOf, Legal;
    AdvanceStep(before, e, e.id, goal);
    if e.step.Add? {
      RestsGatherNew(before, e, goal, k);
    } else {
      RestSharesStep(before, e, IdsOf(before, goal), k);
      WholeRestStep(before, e, goal, k);
      if DeltaOf(e.step).keys != [] {
        UsageGathers(before, goal, k);
        GatheredAtMost(RestShares(before + [e], IdsOf(before, goal), k), UsageShares(before, IdsOf(before, goal), k));
      }
    }
  }

  lemma RestsGatherNew(before: Log, e: Event, goal: nat, k: Counter)
    requires Legal(before) && Fits(before, e, goal) && e.OfDelivery? && e.id.goal == goal && e.step.Add?
    requires Gathered(false, RestShares(before, IdsOf(before, goal), k)) <= Rest(DeltasOn(before, goal), k)
    ensures var log := before + [e];
            Gathered(false, RestShares(log, IdsOf(log, goal), k)) <= Rest(DeltasOn(log, goal), k)
  {
    var ids := IdsOf(before, goal);
    AdvanceStep(before, e, e.id, goal);
    RestSharesStep(before, e, ids, k);
    WholeRestStep(before, e, goal, k);
    RestStep(before, e, e.id, k);
    assert RestShares(before + [e], ids + [e.id], k) == RestShares(before, ids, k) + [0];
    GatheredAdd(false, RestShares(before, ids, k), 0);
  }

  /** Only one occurrence had the goal's last receipt; what the others had before theirs is part of the rest. */
  lemma {:induction false} RestsGather(log: Log, goal: nat, k: Counter)
    requires Legal(log) && !Peak(k)
    ensures Gathered(false, RestShares(log, IdsOf(log, goal), k)) <= Rest(DeltasOn(log, goal), k)
  {
    if log != [] {
      var before, e := log[..|log| - 1], log[|log| - 1];
      RestsGather(before, goal, k);
      LegalFits(before, e, goal);
      assert log == before + [e];
      if e.OfDelivery? && e.id.goal == goal {
        RestsGatherStep(before, e, goal, k);
      } else {
        RestSharesOther(before, e, goal, k);
      }
    }
  }

  lemma RestSharesOther(before: Log, e: Event, goal: nat, k: Counter)
    requires Fits(before, e, goal) && !(e.OfDelivery? && e.id.goal == goal)
    ensures IdsOf(before + [e], goal) == IdsOf(before, goal)
    ensures RestShares(before + [e], IdsOf(before, goal), k) == RestShares(before, IdsOf(before, goal), k)
    ensures Rest(DeltasOn(before + [e], goal), k) == Rest(DeltasOn(before, goal), k)
  {
    var ids := IdsOf(before, goal);
    AdvanceStep(before, e, DeliveryId(goal, 0), goal);
    WholeRestStep(before, e, goal, k);
    forall i | 0 <= i < |ids| ensures RestShares(before + [e], ids, k)[i] == RestShares(before, ids, k)[i] {
      RestStep(before, e, ids[i], k);
    }
  }

  /** While a counter has its place, a goal's total of a counter is the sum of the totals of its occurrences if,
      and only if, the counter is a peak, or what the goal had received before its last receipt is within
      the clamp, or one occurrence had received all of that before a receipt of its own. */
  lemma UsageConserved(log: Log, goal: nat, k: Counter)
    requires Legal(log) && GoalOf(log, goal).Some? && AllSeated(log, goal, k)
    ensures forall id | id in IdsOf(log, goal) :: DeliveryOf(log, id).Some?
    ensures Value(GoalOf(log, goal).value.usage, k) == Gathered(Peak(k), TotalShares(log, IdsOf(log, goal), k))
            <==> Peak(k) || Rest(DeltasOn(log, goal), k) <= CLAMP
                 || exists id | id in IdsOf(log, goal) :: Rest(DeltasOf(log, id), k) == Rest(DeltasOn(log, goal), k)
  {
    hide UsageTotals.Rest, UsageTotals.SumOf, IdsOf, DeltasOn, DeltasOf, UsageTotals.Gathered;
    var ids := IdsOf(log, goal);
    IdsListed(log, goal);
    GoalTotal(log, goal, k);
    UsageGathers(log, goal, k);
    TotalSharesAre(log, goal, k);
    var totals, rests := TotalShares(log, ids, k), RestShares(log, ids, k);
    if Peak(k) {
      assert totals == UsageShares(log, ids, k);
    } else {
      GatheredLess(totals, UsageShares(log, ids, k), rests);
      RestsGather(log, goal, k);
      ExcessesAgree(rests, Rest(DeltasOn(log, goal), k));
      Listed(log, ids, k, Rest(DeltasOn(log, goal), k));
    }
  }

  lemma Listed(log: Log, ids: seq<DeliveryId>, k: Counter, v: int)
    ensures v in RestShares(log, ids, k) <==> exists id | id in ids :: Rest(DeltasOf(log, id), k) == v
  {
    var rests := RestShares(log, ids, k);
    if v in rests {
      var i :| 0 <= i < |rests| && rests[i] == v;
      assert ids[i] in ids;
    }
    forall id | id in ids && Rest(DeltasOf(log, id), k) == v ensures v in rests {
      var i :| 0 <= i < |ids| && ids[i] == id;
      assert rests[i] == v;
    }
  }

  lemma TotalSharesAre(log: Log, goal: nat, k: Counter)
    requires Legal(log) && AllSeated(log, goal, k)
    requires forall id | id in IdsOf(log, goal) :: id.goal == goal && DeliveryOf(log, id).Some?
    ensures var ids := IdsOf(log, goal);
            forall i | 0 <= i < |ids| ::
              && TotalShares(log, ids, k)[i]
                 == UsageShares(log, ids, k)[i] - (if Peak(k) then 0 else Excess(RestShares(log, ids, k)[i]))
              && 0 <= RestShares(log, ids, k)[i]
  {
    hide UsageTotals.Rest, UsageTotals.SumOf, IdsOf, DeltasOn, DeltasOf;
    var ids := IdsOf(log, goal);
    forall i | 0 <= i < |ids|
      ensures TotalShares(log, ids, k)[i]
              == UsageShares(log, ids, k)[i] - (if Peak(k) then 0 else Excess(RestShares(log, ids, k)[i]))
      ensures 0 <= RestShares(log, ids, k)[i]
    {
      DeliveryTotal(log, ids[i], k);
      LegalMetered(log);
      DeltasWithin(log, ids[i], goal);
      RestAtMost(DeltasOf(log, ids[i]), k);
    }
  }
}
