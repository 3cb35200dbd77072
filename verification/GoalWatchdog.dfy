/** The watchdog: what ties deliveries to the approvals they wait for, run over and over. */
module GoalWatchdog {
  import Collections
  import opened FileSystem
  import opened UsageTotals
  import opened GoalLog
  import opened GoalHistory
  import opened GoalStore

  datatype Verdict = Open | Refused | Carried(ok: bool)

  /** An approval as the registry holds it: `linked` to a delivery or not, and how it was decided. */
  datatype Decision = Decision(id: nat, linked: bool, verdict: Verdict)

  predicate Decided(d: Decision) {
    d.linked && !d.verdict.Open?
  }

  function Known(decisions: seq<Decision>): set<nat> {
    set d | d in decisions :: d.id
  }

  /** Nothing is left to do for a decision about a delivery in this state. */
  predicate Done(d: Delivery) {
    Ended(d) || d.status.Draining?
  }

  ghost predicate OneEach(log: Log) {
    forall a, b | DeliveryOf(log, a).Some? && DeliveryOf(log, b).Some? && a != b && DeliveryOf(log, a).value.approval.Some? ::
      DeliveryOf(log, a).value.approval != DeliveryOf(log, b).value.approval
  }

  /** The approval an event ties its delivery to. */
  function Reference(e: Event): Option<nat> {
    if e.OfDelivery? && e.step.Block? && e.step.kind.Approval? then Some(e.step.reference)
    else if e.OfDelivery? && e.step.Deny? then e.step.denied else None
  }

  /** Another delivery is tied to the approval this event ties its delivery to. */
  ghost predicate Taken(log: Log, e: Event) {
    Reference(e).Some?
    && exists other | other != e.id && DeliveryOf(log, other).Some? :: DeliveryOf(log, other).value.approval == Reference(e)
  }

  lemma ConcludedApproval(d: Delivery, s: Step)
    requires Concluding(s)
    ensures Concluded(d, s).approval
            == if s.Block? && s.kind.Approval? then Some(s.reference) else if s.Deny? then s.denied else d.approval
  {
    match s
    case Complete(_, _, _, _) =>
    case Corrupt =>
    case Fail(_, _, _, _, _, _) =>
    case Block(_, _, _, _) =>
    case Deny(_, _, _, _) =>
    case Park(_, _, _) =>
  }

  lemma AppliedApproval(d: Delivery, s: Step)
    ensures Applied(d, s).approval
            == if s.Block? && s.kind.Approval? then Some(s.reference) else if s.Deny? then s.denied else d.approval
  {
    hide Concluded;
    if Concluding(s) {
      ConcludedApproval(d, s);
    }
  }

  /** Every event keeps approvals and deliveries one to one, except one that ties its delivery to an
      approval another delivery is tied to. */
  lemma OneEachStep(log: Log, e: Event)
    requires Enabled(log, e) && OneEach(log)
    ensures OneEach(log + [e]) <==> !Taken(log, e)
  {
    hide Applied, Legal, Possible;
    Appended(log, e);
    var after := log + [e];
    forall id | id != (if e.OfDelivery? then e.id else id) || e.OfGoal? ensures DeliveryOf(after, id) == DeliveryOf(log, id) {
    }
    if e.OfDelivery? && !e.step.Add? {
      AppliedApproval(DeliveryOf(log, e.id).value, e.step);
      if Taken(log, e) {
        var other :| other != e.id && DeliveryOf(log, other).Some? && DeliveryOf(log, other).value.approval == Reference(e);
        assert DeliveryOf(after, other).value.approval == DeliveryOf(after, e.id).value.approval;
      }
    }
  }

  /** An approval is asked for on behalf of one delivery. */
  ghost predicate Fresh(log: Log) {
    log == [] || (Fresh(log[..|log| - 1]) && !Taken(log[..|log| - 1], log[|log| - 1]))
  }

  /** So they have been one to one all along if, and only if, no approval was asked for on behalf of two. */
  lemma {:induction false} FreshOneEach(log: Log)
    requires Legal(log)
    ensures Fresh(log) <==> forall i | 0 <= i <= |log| :: OneEach(log[..i])
  {
    if log == [] {
      assert log[..0] == [];
    } else {
      var before, e := log[..|log| - 1], log[|log| - 1];
      FreshOneEach(before);
      SamePrefixes(log, before);
      assert before + [e] == log && before[..|before|] == before;
      if OneEach(before) {
        OneEachStep(before, e);
      }
    }
  }

  lemma SamePrefixes(log: Log, before: Log)
    requires log != [] && before == log[..|log| - 1]
    ensures (forall i | 0 <= i <= |log| :: OneEach(log[..i]))
            <==> (forall i | 0 <= i <= |before| :: OneEach(before[..i])) && OneEach(log)
  {
    var n := |before|;
    assert log[..n + 1] == log;
    if forall i | 0 <= i <= |log| :: OneEach(log[..i]) {
      forall i | 0 <= i <= n ensures OneEach(before[..i]) {
        assert before[..i] == log[..i];
      }
    }
    if (forall i | 0 <= i <= |before| :: OneEach(before[..i])) && OneEach(log) {
      forall i | 0 <= i <= |log| ensures OneEach(log[..i]) {
        if i <= n {
          assert before[..i] == log[..i];
        }
      }
    }
  }

  ghost predicate Handled(log: Log, decision: Decision) {
    Decided(decision) ==>
      forall id | DeliveryOf(log, id).Some? && DeliveryOf(log, id).value.approval == Some(decision.id) ::
        Done(DeliveryOf(log, id).value)
  }

  /** A pass at this instant finds nothing to do. */
  ghost predicate Quiet(log: Log, decisions: seq<Decision>, now: Time) {
    && (forall id :: !Overdue(DeliveryOf(log, id), now))
    && (forall d | d in decisions :: Handled(log, d))
    && (forall id :: !Orphaned(DeliveryOf(log, id), Known(decisions)))
    && (forall id :: !Reminds(DeliveryOf(log, id), now))
  }

  /** Then every delivery that waits for an approval waits for one that is known and, if it is linked, still open. */
  lemma QuietWaits(log: Log, decisions: seq<Decision>, now: Time, id: DeliveryId)
    requires Quiet(log, decisions, now) && DeliveryOf(log, id).Some?
    requires DeliveryOf(log, id).value.status.Blocked? && DeliveryOf(log, id).value.kind == Some(Approval)
    requires DeliveryOf(log, id).value.approval.Some?
    ensures DeliveryOf(log, id).value.approval.value in Known(decisions)
    ensures forall d | d in decisions && d.id == DeliveryOf(log, id).value.approval.value && d.linked :: d.verdict.Open?
  {
    assert !Orphaned(DeliveryOf(log, id), Known(decisions));
    forall d | d in decisions && d.id == DeliveryOf(log, id).value.approval.value && d.linked ensures d.verdict.Open? {
      assert Handled(log, d);
    }
  }

  /** Approvals are held by their ids. */
  ghost predicate DistinctIds(decisions: seq<Decision>) {
    forall i, j :: 0 <= i < j < |decisions| ==> decisions[i].id != decisions[j].id
  }

  ghost predicate Stranded(d: Option<Delivery>, reference: nat) {
    d.Some? && d.value.approval == Some(reference) && MovedOn(d.value)
  }

  /** The approved action was carried out, and the delivery found for it has moved on. */
  ghost predicate Strands(log: Log, decision: Decision) {
    var found := Waiting(log, log, Approval, decision.id);
    decision.linked && decision.verdict.Carried? && found.Some? && MovedOn(DeliveryOf(log, found.value).value)
  }

  /** What the watchdog on phases makes of a delivery. */
  function Phased(log: Log, id: DeliveryId, now: Time): Option<Delivery> {
    AfterOne(DeliveryOf(log, id), Overdue(DeliveryOf(log, id), now), Overrun(DeliveryOf(log, id), now))
  }

  ghost predicate StrandsAt(log: Log, decision: Decision, now: Time) {
    decision.linked && decision.verdict.Carried? && exists id :: Stranded(Phased(log, id, now), decision.id)
  }

  /** What taking over a dead process's deliveries makes of one. */
  function TookOver(log: Log, id: DeliveryId, sidecars: map<DeliveryId, Sidecar>, runner: nat, now: Time): Option<Delivery> {
    var d, g := DeliveryOf(log, id), GoalOf(log, id.goal);
    if Abandoned(d, runner) && g.Some? then Some(AfterTakeover(d.value, g.value, SideOf(sidecars, id), now)) else d
  }

  /** What is overdue at startup is failed, so it is not in the way; the rest is as the takeover left it. */
  ghost predicate StrandsAtStart(log: Log, decision: Decision, sidecars: map<DeliveryId, Sidecar>, runner: nat, now: Time) {
    decision.linked && decision.verdict.Carried?
    && exists id :: Stranded(TookOver(log, id, sidecars, runner, now), decision.id)
                    && !Overdue(TookOver(log, id, sidecars, runner, now), now)
  }

  /** The end of a drained phase: an approved action that was being applied is not retried. */
  function Drained(d: Delivery, g: Goal, now: Time): Delivery {
    Stepped(d, Failing(d, g, d.phase != Some(ApplyPhase), now, NO_USAGE))
  }

  /** One of the decisions is about this delivery, and has been taken. */
  ghost predicate Named(log: Log, id: DeliveryId, decisions: seq<Decision>) {
    DeliveryOf(log, id).Some? && NamedIn(DeliveryOf(log, id).value, decisions)
  }

  ghost predicate NamedIn(d: Delivery, decisions: seq<Decision>) {
    exists c | c in decisions :: Decided(c) && d.approval == Some(c.id)
  }

  /** What a decision makes of the delivery it is about: an action that was carried out completes it, one that
      failed fails it for good, a refusal denies it; one that is over or draining stays as it is. */
  predicate Follows(v: Verdict, d: Delivery, every: nat, e: Delivery, now: Time) {
    if v.Carried? && Resolvable(d) then Carries(d, every, e, v.ok, now)
    else if v.Refused? && Deniable(d) then e.status.Denied? && HasClosed(d, every, e, now)
    else e == d
  }

  /** Delivery `id` has become what the decision makes of it, if the decision is about it. */
  ghost predicate Answers(before: Log, after: Log, id: DeliveryId, decision: Decision, now: Time) {
    Named(before, id, [decision]) ==>
      && DeliveryOf(after, id).Some?
      && Follows(decision.verdict, DeliveryOf(before, id).value, EveryOf(before, id.goal), DeliveryOf(after, id).value, now)
  }

  /** An action that was carried out for a delivery that waits for it leaves its result. */
  ghost predicate Results(d: Option<Delivery>, decisions: seq<Decision>) {
    d.Some? && Resolvable(d.value)
    && exists c | c in decisions :: c.linked && c.verdict == Carried(true) && d.value.approval == Some(c.id)
  }

  /** The result files after some decisions. */
  ghost predicate Filed(before: Log, was: map<DeliveryId, Sidecar>, sidecars: map<DeliveryId, Sidecar>, decisions: seq<Decision>, now: Time) {
    forall id :: SideOf(sidecars, id) == if Results(DeliveryOf(before, id), decisions) then Some(Sidecar(now, NO_USAGE)) else SideOf(was, id)
  }

  /** `after` goes on from `before`, with events of deliveries the decisions are about. */
  ghost predicate Extends(before: Log, after: Log, decisions: seq<Decision>) {
    before <= after
    && forall i | |before| <= i < |after| && after[i].OfDelivery? :: Named(before, after[i].id, decisions)
  }

  /** A decision changes the delivery found for it, and no other. */
  ghost predicate OneChange(before: Log, was: map<DeliveryId, Sidecar>, after: Log, sidecars: map<DeliveryId, Sidecar>,
                            decision: Decision, raised: bool, now: Time)
  {
    var found := Waiting(before, before, Approval, decision.id);
    && SameEvery(before, after) && before <= after
    && (forall i | |before| <= i < |after| && after[i].OfDelivery? :: found == Some(after[i].id))
    && (forall id | found != Some(id) :: DeliveryOf(after, id) == DeliveryOf(before, id))
    && (!Decided(decision) || found.None? || raised ==> after == before && sidecars == was)
    && (Decided(decision) && found.Some? ==>
          var d, e := DeliveryOf(before, found.value).value, DeliveryOf(after, found.value);
          && e.Some? && Follows(decision.verdict, d, EveryOf(before, found.value.goal), e.value, now)
          && e.value.approval == Some(decision.id)
          && (if Done(d) || raised then after == before else Closed(e.value))
          && sidecars == if decision.verdict == Carried(true) && Resolvable(d) then was[found.value := Sidecar(now, NO_USAGE)] else was)
  }

  /** What one decision does. */
  ghost predicate OneDecision(before: Log, was: map<DeliveryId, Sidecar>, after: Log, sidecars: map<DeliveryId, Sidecar>,
                              decision: Decision, raised: bool, now: Time)
  {
    && (Handled(before, decision) || raised ==> after == before && (raised ==> sidecars == was))
    && (Handled(before, decision) ==> !raised)
    && (OneEach(before) && !raised ==> Handled(after, decision))
    && (OneEach(before) ==> OneEach(after))
    && Extends(before, after, [decision]) && SameEvery(before, after)
    && (forall id :: StillOrClosed(before, after, id))
    && (forall id :: Named(before, id, [decision]) || DeliveryOf(after, id) == DeliveryOf(before, id))
    && (OneEach(before) ==> (forall id :: Answers(before, after, id, decision, now)) && Filed(before, was, sidecars, [decision], now))
  }

  ghost predicate IsPhased(before: Log, after: Log, now: Time) {
    forall id :: DeliveryOf(after, id) == Phased(before, id, now) && EveryOf(after, id.goal) == EveryOf(before, id.goal)
  }

  /** What a whole pass makes of a delivery that no phase is overdue for. */
  ghost predicate Tended(d: Option<Delivery>, every: nat, e: Option<Delivery>, decisions: seq<Decision>, now: Time) {
    if d.None? then e.None?
    else
      e.Some?
      && if NamedIn(d.value, decisions)
         then forall c | c in decisions && Decided(c) && d.value.approval == Some(c.id) :: Follows(c.verdict, d.value, every, e.value, now)
         else Tidied(d, every, e, Known(decisions), now)
  }

  /** A lost approval fails its delivery, a due question is reminded and parked, all else stays. */
  ghost predicate Tidied(d: Option<Delivery>, every: nat, e: Option<Delivery>, known: set<nat>, now: Time) {
    if Orphaned(d, known) then e.Some? && HasFailed(d.value, every, e.value, false, now)
    else if Reminds(d, now) then e.Some? && e.value.status.Parked? && e.value.reminded
    else e == d
  }

  /** What a pass that was cut short has done: some decisions. */
  ghost predicate Part(before: Log, was: map<DeliveryId, Sidecar>, after: Log, sidecars: map<DeliveryId, Sidecar>,
                       made: seq<Decision>, now: Time)
  {
    (forall id, d | d in made :: Answers(before, after, id, d, now)) && Filed(before, was, sidecars, made, now)
  }

  /** What a whole pass has done, to every delivery. */
  ghost predicate Whole(before: Log, was: map<DeliveryId, Sidecar>, after: Log, sidecars: map<DeliveryId, Sidecar>,
                        decisions: seq<Decision>, now: Time)
  {
    && (forall id :: Tended(DeliveryOf(before, id), EveryOf(before, id.goal), DeliveryOf(after, id), decisions, now))
    && Filed(before, was, sidecars, decisions, now)
  }

  /** What the decisions up to the `i`th have done. */
  ghost predicate Progress(before: Log, was: map<DeliveryId, Sidecar>, after: Log, sidecars: map<DeliveryId, Sidecar>,
                           decisions: seq<Decision>, i: nat, now: Time)
    requires i <= |decisions|
  {
    var made := decisions[..i];
    && ((forall d | d in made :: Handled(before, d)) ==> after == before)
    && (OneEach(before) ==> OneEach(after) && forall d | d in made :: Handled(after, d))
    && Extends(before, after, made) && SameEvery(before, after)
    && (forall id :: StillOrClosed(before, after, id))
    && (forall id :: Named(before, id, made) || DeliveryOf(after, id) == DeliveryOf(before, id))
    && (DistinctIds(decisions) ==> forall d | d in made :: !Strands(before, d))
    && (OneEach(before) && DistinctIds(decisions) ==>
          (forall id, d | d in made :: Answers(before, after, id, d, now)) && Filed(before, was, sidecars, made, now))
  }

  class Watchdog {
    const store: Store
    const decisions: seq<Decision>

    constructor (store: Store, decisions: seq<Decision>)
      ensures this.store == store && this.decisions == decisions
    {
      this.store, this.decisions := store, decisions;
    }

    /** Brings the delivery of one approval in line with it; a delivery that has moved on raises. */
    method ReconcileApproval(decision: Decision, now: Time) returns (raised: bool)
      requires store.Valid()
      modifies store
      ensures store.Valid()
      ensures raised <==> Strands(old(store.log), decision)
      ensures OneDecision(old(store.log), old(store.sidecars), store.log, store.sidecars, decision, raised, now)
    {
      ghost var before, was := store.log, store.sidecars;
      raised := Follow(decision, now);
      DecisionMeans(before, was, store.log, store.sidecars, decision, raised, now);
    }

    /** Looks up the delivery and does what the decision says. */
    method Follow(decision: Decision, now: Time) returns (raised: bool)
      requires store.Valid()
      modifies store
      ensures store.Valid() && (raised <==> Strands(old(store.log), decision))
      ensures OneChange(old(store.log), old(store.sidecars), store.log, store.sidecars, decision, raised, now)
    {
      raised := false;
      if !Decided(decision) {
        return;
      }
      if decision.verdict.Refused? {
        Refuse(decision, now);
      } else {
        raised := Resolve(decision, now);
      }
    }

    method Refuse(decision: Decision, now: Time)
      requires store.Valid() && Decided(decision) && decision.verdict.Refused?
      modifies store`log
      ensures store.Valid() && !Strands(old(store.log), decision)
      ensures OneChange(old(store.log), store.sidecars, store.log, store.sidecars, decision, false, now)
    {
      hide HasClosed, HasFailed, HasCompleted, Legal, Denial;
      ghost var before := store.log;
      ghost var found := Waiting(before, before, Approval, decision.id);
      if found.Some? {
        GoalKnown(before, found.value);
      }
      var r := store.DenyByApproval(decision.id, now);
      forall id | found != Some(id) ensures DeliveryOf(store.log, id) == DeliveryOf(before, id) {
        assert store.D(id) == DeliveryOf(store.log, id);
      }
      if found.Some? {
        assert store.D(found.value) == DeliveryOf(store.log, found.value);
      }
    }

    method Resolve(decision: Decision, now: Time) returns (raised: bool)
      requires store.Valid() && Decided(decision) && decision.verdict.Carried?
      modifies store
      ensures store.Valid() && (raised <==> Strands(old(store.log), decision))
      ensures OneChange(old(store.log), old(store.sidecars), store.log, store.sidecars, decision, raised, now)
    {
      hide HasClosed, HasFailed, HasCompleted, Legal, Completion, Failing;
      ghost var before := store.log;
      ghost var found := Waiting(before, before, Approval, decision.id);
      if found.Some? {
        GoalKnown(before, found.value);
      }
      var r := store.ResolveApproval(decision.id, decision.verdict.ok, NO_USAGE, None, now);
      raised := r.Conflict?;
      forall id | found != Some(id) ensures DeliveryOf(store.log, id) == DeliveryOf(before, id) {
        assert store.D(id) == DeliveryOf(store.log, id);
      }
      if found.Some? {
        assert store.D(found.value) == DeliveryOf(store.log, found.value);
      }
    }

    /** One pass over overdue phases, decided approvals, lost approvals and open questions.  It raises exactly
        when an approved action was carried out whose delivery has moved on; the decisions before that one
        are then settled, and nothing else is: no later decision, no lost approval, no open question.
        Otherwise nothing is left to do; and when nothing was, nothing is appended. */
    method Reconcile(now: Time) returns (raised: bool, handled: nat)
      requires store.Valid()
      modifies store
      ensures store.Valid()
      ensures DistinctIds(decisions) ==>
                (raised <==> exists d | d in decisions :: Strands(PhasedLog(old(store.log), AllIds(old(store.log)), now), d))
      ensures OneEach(old(store.log)) && DistinctIds(decisions) ==>
                (raised <==> exists d | d in decisions :: StrandsAt(old(store.log), d, now))
      ensures raised ==> handled < |decisions|
      ensures raised ==> forall id ::
                Named(old(store.log), id, decisions[..handled]) || DeliveryOf(store.log, id) == Phased(old(store.log), id, now)
      ensures raised && OneEach(old(store.log)) && DistinctIds(decisions) ==>
                && StrandsAt(old(store.log), decisions[handled], now)
                && forall d | d in decisions[..handled] :: !StrandsAt(old(store.log), d, now) && Handled(store.log, d)
      ensures OneEach(old(store.log)) && !raised ==> Quiet(store.log, decisions, now)
      ensures Quiet(old(store.log), decisions, now) ==> !raised && store.log == old(store.log)
      // what becomes of every delivery and of the result files
      ensures OneEach(old(store.log)) && DistinctIds(decisions) ==>
                var phased := PhasedLog(old(store.log), AllIds(old(store.log)), now);
                && IsPhased(old(store.log), phased, now)
                && if raised then Part(phased, old(store.sidecars), store.log, store.sidecars, decisions[..handled], now)
                   else Whole(phased, old(store.sidecars), store.log, store.sidecars, decisions, now)
    {
      hide Part, Whole, PhasedLog, IsPhased, Overdue, Overrun, Quiet, Handled, Strands, StrandsAt, Finishes;
      ghost var before := store.log;
      var touched := Watch(now);
      ghost var watched := store.log;
      if OneEach(before) {
        WatchedApart(before, watched, now);
        ReplacedPhased(before, watched, decisions, now);
      }
      QuietWatched(before, decisions, now);
      raised, handled := Tend(now);
      if raised {
        ReplacedNamed(before, watched, decisions[..handled], now);
      }
    }

    method Watch(now: Time) returns (touched: seq<DeliveryId>)
      requires store.Valid()
      modifies store`log
      ensures store.Valid() && store.log == PhasedLog(old(store.log), AllIds(old(store.log)), now)
      ensures IsPhased(old(store.log), store.log, now)
      ensures forall id :: Watched(old(store.log), store.log, id, now)
      ensures forall id :: !Overdue(DeliveryOf(store.log, id), now)
      ensures (forall id :: !Overdue(DeliveryOf(old(store.log), id), now)) ==> store.log == old(store.log)
    {
      hide PhasedLog, OverdueIn, AllIds, HasOverrun, Overdue, Overrun;
      ghost var before := store.log;
      touched := store.PhaseWatchdogs(now);
      forall id ensures Watched(before, store.log, id, now) && !Overdue(DeliveryOf(store.log, id), now) {
        assert store.D(id) == DeliveryOf(store.log, id);
      }
      if forall id :: !Overdue(DeliveryOf(before, id), now) {
        forall id ensures !Overdue(old(store.D(id)), now) {
          assert old(store.D(id)) == DeliveryOf(before, id);
        }
      }
    }

    /** What a pass does once no phase is overdue. */
    method Tend(now: Time) returns (raised: bool, handled: nat)
      requires store.Valid() && forall id :: !Overdue(DeliveryOf(store.log, id), now)
      modifies store
      ensures store.Valid() && (raised ==> handled < |decisions|)
      ensures DistinctIds(decisions) ==>
                && (raised <==> exists d | d in decisions :: Strands(old(store.log), d))
                && (raised ==> Strands(old(store.log), decisions[handled])
                               && forall d | d in decisions[..handled] :: !Strands(old(store.log), d))
      ensures raised ==> forall id ::
                Named(old(store.log), id, decisions[..handled]) || DeliveryOf(store.log, id) == DeliveryOf(old(store.log), id)
      ensures raised && OneEach(old(store.log)) ==> forall d | d in decisions[..handled] :: Handled(store.log, d)
      ensures OneEach(old(store.log)) && !raised ==> Quiet(store.log, decisions, now)
      ensures Quiet(old(store.log), decisions, now) ==> !raised && store.log == old(store.log)
      ensures forall id :: Finishes(old(store.log), store.log, id)
      ensures OneEach(old(store.log)) && DistinctIds(decisions) ==>
                if raised then Part(old(store.log), old(store.sidecars), store.log, store.sidecars, decisions[..handled], now)
                else Whole(old(store.log), old(store.sidecars), store.log, store.sidecars, decisions, now)
    {
      ghost var watched, was := store.log, store.sidecars;
      raised, handled := ReconcileApprovals(now);
      ghost var decided := store.log;
      Collections.TakeAll(decisions);
      forall id ensures Finishes(watched, decided, id) {
        assert StillOrClosed(watched, decided, id);
      }
      if raised {
        return;
      }
      Finish(decided, now);
      ghost var after := store.log;
      EndsTwice(watched, decided, after);
      EndsQuiet(watched, decided, after, decisions, now);
      if OneEach(watched) && DistinctIds(decisions) {
        PassMeans(watched, was, decided, after, store.sidecars, decisions, now);
      }
    }

    /** Ends the phases that were drained; one that was only put back makes it raise. */
    method FinishDrains(touched: seq<DeliveryId>, now: Time) returns (raised: bool)
      requires store.Valid() && Distinct(touched) && forall id | id in touched :: store.D(id).Some?
      modifies store`log
      ensures store.Valid()
      ensures raised <==> exists id | id in touched :: Undrained(old(store.D(id)))
      ensures forall id | id !in touched :: store.D(id) == old(store.D(id))
      ensures !raised ==> forall id | id in touched :: EndedDrain(old(store.log), store.log, id, now)
      ensures SameEvery(old(store.log), store.log)
    {
      raised := false;
      ghost var before := store.log;
      for i := 0 to |touched|
        invariant store.Valid() && !raised && SameEvery(before, store.log)
        invariant forall g | GoalOf(before, g).Some? :: store.G(g).Some? && store.G(g).value.every == GoalOf(before, g).value.every
        invariant forall id | id !in touched[..i] :: store.D(id) == DeliveryOf(before, id)
        invariant forall k | 0 <= k < i :: !Undrained(DeliveryOf(before, touched[k]))
        invariant forall k | 0 <= k < i :: EndedDrain(before, store.log, touched[k], now)
      {
        var id := touched[i];
        Collections.TakeNext(touched, i);
        assert id !in touched[..i] && id in touched;
        ghost var d, last := DeliveryOf(before, id).value, store.log;
        GoalKnown(before, id);
        DrainedEvery(d, GoalOf(before, id.goal).value, store.G(id.goal).value, now);
        var r := store.FinishDrain(id, store.D(id).value.phase != Some(ApplyPhase), now);
        if r.Conflict? {
          return true;
        }
        forall k | 0 <= k < i ensures EndedDrain(before, store.log, touched[k], now) {
          assert EndedDrain(before, last, touched[k], now) && touched[k] != id;
          assert store.D(touched[k]) == DeliveryOf(last, touched[k]);
        }
      }
      Collections.TakeAll(touched);
    }

    /** What a new process does first.  It takes over what the dead one was working on, ends every phase that
        is overdue, and makes one pass.  Nothing is in hand afterwards; it raises exactly when an approved
        action was carried out whose delivery has moved on, never for want of a drain; and otherwise nothing
        is left to do. */
    method Startup(now: Time) returns (raised: bool, handled: nat, ghost ended: Log)
      requires store.Valid() && forall id | store.D(id).Some? :: store.D(id).value.runner != Some(store.runner)
      modifies store
      ensures store.Valid()
      ensures forall id | store.D(id).Some? :: !InHand(store.D(id).value)
      ensures OneEach(old(store.log)) && DistinctIds(decisions) ==>
                (raised <==> exists d | d in decisions ::
                               StrandsAtStart(old(store.log), d, old(store.sidecars), store.runner, now))
      ensures OneEach(old(store.log)) && !raised ==> Quiet(store.log, decisions, now)
      ensures raised ==> handled < |decisions|
      // what becomes of every delivery and of the result files: `ended` is the log before the pass
      ensures SameEvery(old(store.log), ended)
      ensures forall id :: TimedOut(TookOver(old(store.log), id, old(store.sidecars), store.runner, now), EveryOf(old(store.log), id.goal),
                                    DeliveryOf(ended, id), now)
      ensures OneEach(old(store.log)) && DistinctIds(decisions) ==>
                if raised then Part(ended, old(store.sidecars), store.log, store.sidecars, decisions[..handled], now)
                else Whole(ended, old(store.sidecars), store.log, store.sidecars, decisions, now)
    {
      hide Legal, AfterTakeover, Restarted, AllIds, Overdue, Stranded, Quiet, TimedOut, Part, Whole, TakenBy, Spared;
      ghost var before := store.log;
      store.ReconcileStale(now);
      ghost var taken := store.log;
      forall id ensures Rested(before, taken, id, store.sidecars, store.runner, now) {
        if DeliveryOf(before, id).Some? {
          GoalKnown(before, id);
        }
        TakenRests(before, id, store.sidecars, store.runner, now);
        assert store.D(id) == DeliveryOf(taken, id);
      }
      TakenNames(before, taken, decisions, store.sidecars, store.runner, now);
      raised, handled, ended := EndOverdue(now);
    }

    method EndOverdue(now: Time) returns (raised: bool, handled: nat, ghost ended: Log)
      requires store.Valid() && forall id | DeliveryOf(store.log, id).Some? :: !InHand(DeliveryOf(store.log, id).value)
      modifies store
      ensures store.Valid() && forall id | DeliveryOf(store.log, id).Some? :: !InHand(DeliveryOf(store.log, id).value)
      ensures OneEach(old(store.log)) && DistinctIds(decisions) ==>
                (raised <==> exists d | d in decisions :: StrandsOnTime(old(store.log), d, now))
      ensures raised ==> handled < |decisions|
      ensures OneEach(old(store.log)) && !raised ==> Quiet(store.log, decisions, now)
      ensures SameEvery(old(store.log), ended)
      ensures forall id :: TimedOut(DeliveryOf(old(store.log), id), EveryOf(old(store.log), id.goal), DeliveryOf(ended, id), now)
      ensures OneEach(old(store.log)) && DistinctIds(decisions) ==>
                if raised then Part(ended, old(store.sidecars), store.log, store.sidecars, decisions[..handled], now)
                else Whole(ended, old(store.sidecars), store.log, store.sidecars, decisions, now)
    {
      hide Legal, Quiet, Strands, StrandsOnTime, Overdue, TimedOut, Part, Whole;
      ghost var before := store.log;
      DrainOverdue(now);
      ghost var after := store.log;
      ended := after;
      EndedNames(before, after, decisions, now);
      raised, handled := Tend(now);
      forall id | DeliveryOf(store.log, id).Some? ensures !InHand(DeliveryOf(store.log, id).value) {
        assert Finishes(after, store.log, id) && EndedAt(before, after, id, now);
      }
    }

    /** With nothing in hand no phase is put back, so every drain can be ended. */
    method DrainOverdue(now: Time)
      requires store.Valid() && forall id | DeliveryOf(store.log, id).Some? :: !InHand(DeliveryOf(store.log, id).value)
      modifies store`log
      ensures store.Valid() && forall id :: EndedAt(old(store.log), store.log, id, now)
      ensures SameEvery(old(store.log), store.log)
      ensures forall id :: TimedOut(DeliveryOf(old(store.log), id), EveryOf(old(store.log), id.goal), DeliveryOf(store.log, id), now)
    {
      hide Legal, Drained, PhasedLog, OverdueIn, AllIds, Overrun, Overdue, HasOverrun, TimedOut;
      ghost var before := store.log;
      var touched := store.PhaseWatchdogs(now);
      ghost var watched := store.log;
      forall id ensures DrainedAt(before, watched, id, now) {
        assert store.D(id) == DeliveryOf(watched, id);
        DrainedPhase(before, watched, id, now);
      }
      forall id | id in touched ensures store.D(id).Some? && !Undrained(store.D(id)) {
        assert DrainedAt(before, watched, id, now);
      }
      forall id | id in touched && DeliveryOf(watched, id).Some? ensures GoalOf(watched, id.goal).Some? {
        GoalKnown(watched, id);
      }
      var ended := FinishDrains(touched, now);
      assert !ended;
      forall id
        ensures EndedAt(before, store.log, id, now)
        ensures TimedOut(DeliveryOf(before, id), EveryOf(before, id.goal), DeliveryOf(store.log, id), now)
      {
        assert DrainedAt(before, watched, id, now) && store.D(id) == DeliveryOf(store.log, id);
        assert id in touched ==> EndedDrain(watched, store.log, id, now);
        EndedPhase(before, watched, store.log, id, now);
      }
    }

    method Finish(ghost decided: Log, now: Time)
      requires store.Valid() && store.log == decided
      modifies store`log
      ensures store.Valid()
      ensures forall id ::
                Tidied(DeliveryOf(decided, id), EveryOf(decided, id.goal), DeliveryOf(store.log, id), Known(decisions), now)
      ensures forall id :: Finishes(decided, store.log, id)
      ensures forall id :: !Orphaned(DeliveryOf(store.log, id), Known(decisions)) && !Reminds(DeliveryOf(store.log, id), now)
      ensures (forall id :: !Orphaned(DeliveryOf(decided, id), Known(decisions)) && !Reminds(DeliveryOf(decided, id), now))
              ==> store.log == decided
    {
      store.ReconcileMissing(Known(decisions), now);
      ghost var found := store.log;
      forall id ensures Finishes(decided, found, id) && !Orphaned(DeliveryOf(found, id), Known(decisions)) {
        assert store.D(id) == DeliveryOf(found, id);
      }
      store.EmitReminders(now);
      forall id
        ensures Finishes(decided, store.log, id)
        ensures Tidied(DeliveryOf(decided, id), EveryOf(decided, id.goal), DeliveryOf(store.log, id), Known(decisions), now)
        ensures !Orphaned(DeliveryOf(store.log, id), Known(decisions)) && !Reminds(DeliveryOf(store.log, id), now)
      {
        assert store.D(id) == DeliveryOf(store.log, id);
        assert Finishes(decided, found, id) && !Orphaned(DeliveryOf(found, id), Known(decisions));
      }
    }

    /** The decisions in their order, up to the first whose delivery has moved on. */
    method ReconcileApprovals(now: Time) returns (raised: bool, handled: nat)
      requires store.Valid()
      modifies store
      ensures store.Valid()
      ensures if raised then handled < |decisions| else handled == |decisions|
      ensures Progress(old(store.log), old(store.sidecars), store.log, store.sidecars, decisions, handled, now)
      ensures DistinctIds(decisions) && raised ==> Strands(old(store.log), decisions[handled])
      ensures raised && handled == 0 ==> store.log == old(store.log)
      ensures (forall d | d in decisions :: Handled(old(store.log), d)) ==> !raised && store.log == old(store.log)
    {
      raised, handled := false, 0;
      ghost var before, was := store.log, store.sidecars;
      hide Progress, OneDecision, Strands, Handled;
      NoProgress(before, was, decisions, now);
      for i := 0 to |decisions|
        invariant store.Valid() && !raised && handled == i
        invariant Progress(before, was, store.log, store.sidecars, decisions, i, now)
      {
        ghost var last, files := store.log, store.sidecars;
        raised := ReconcileApproval(decisions[i], now);
        if raised {
          ProgressStops(before, was, last, files, store.log, store.sidecars, decisions, i, now);
          return;
        }
        ProgressNext(before, was, last, files, store.log, store.sidecars, decisions, i, now);
        handled := i + 1;
      }
      ProgressIdle(before, was, store.log, store.sidecars, decisions, now);
    }
  }

  /** Reads off what was changed for the one delivery found. */
  lemma DecisionMeans(before: Log, was: map<DeliveryId, Sidecar>, after: Log, sidecars: map<DeliveryId, Sidecar>,
                      decision: Decision, raised: bool, now: Time)
    requires Legal(before) && OneChange(before, was, after, sidecars, decision, raised, now) && (raised <==> Strands(before, decision))
    ensures OneDecision(before, was, after, sidecars, decision, raised, now)
  {
    hide Follows, SameEvery;
    if Decided(decision) {
      Unlisted(before, decision.id);
      FoundAnswers(before, after, decision, now);
      FoundFiled(before, was, sidecars, decision, now);
      OnlyFound(before, after, decision, raised);
    } else {
      Undecided(before, was, decision, now);
    }
  }

  lemma Undecided(before: Log, was: map<DeliveryId, Sidecar>, decision: Decision, now: Time)
    requires !Decided(decision)
    ensures forall id :: !Named(before, id, [decision])
    ensures Filed(before, was, was, [decision], now)
  {
  }

  lemma NoProgress(before: Log, was: map<DeliveryId, Sidecar>, decisions: seq<Decision>, now: Time)
    ensures Progress(before, was, before, was, decisions, 0, now)
  {
    assert decisions[..0] == [];
  }

  lemma ProgressStops(before: Log, was: map<DeliveryId, Sidecar>, last: Log, files: map<DeliveryId, Sidecar>,
                      after: Log, sidecars: map<DeliveryId, Sidecar>, decisions: seq<Decision>, i: nat, now: Time)
    requires i < |decisions| && Progress(before, was, last, files, decisions, i, now) && Strands(last, decisions[i])
    requires OneDecision(last, files, after, sidecars, decisions[i], true, now)
    ensures after == last && sidecars == files
    ensures DistinctIds(decisions) ==> Strands(before, decisions[i])
    ensures i == 0 ==> after == before
    ensures !forall d | d in decisions :: Handled(before, d)
  {
    hide Strands, Handled, Answers, Filed, StillOrClosed, Named;
    if DistinctIds(decisions) {
      StrandsSame(before, last, decisions, i);
    }
    if i == 0 {
      assert decisions[..0] == [];
    }
    assert forall d | d in decisions[..i] :: d in decisions;
  }

  lemma ProgressIdle(before: Log, was: map<DeliveryId, Sidecar>, after: Log, sidecars: map<DeliveryId, Sidecar>,
                     decisions: seq<Decision>, now: Time)
    requires Progress(before, was, after, sidecars, decisions, |decisions|, now)
    ensures (forall d | d in decisions :: Handled(before, d)) ==> after == before
  {
    Collections.TakeAll(decisions);
  }

  lemma ProgressNext(before: Log, was: map<DeliveryId, Sidecar>, last: Log, files: map<DeliveryId, Sidecar>,
                     after: Log, sidecars: map<DeliveryId, Sidecar>, decisions: seq<Decision>, i: nat, now: Time)
    requires i < |decisions| && Progress(before, was, last, files, decisions, i, now)
    requires OneDecision(last, files, after, sidecars, decisions[i], false, now) && !Strands(last, decisions[i])
    ensures Progress(before, was, after, sidecars, decisions, i + 1, now)
  {
    hide Strands, Handled, Answers, Filed, StillOrClosed, Named, Extends, OneEach;
    Collections.TakeNext(decisions, i);
    StillOrClosedTwice(before, last, after);
    NextNamed(before, last, after, decisions, i);
    NextExtends(before, last, after, decisions, i);
    if OneEach(before) {
      NextHandled(last, after, decisions, i);
    }
    if DistinctIds(decisions) {
      StrandsSame(before, last, decisions, i);
      if OneEach(before) {
        NextAnswers(before, last, after, decisions, i, now);
        NextFiled(before, was, last, files, sidecars, decisions, i, now);
      }
    }
  }

  lemma PassMeans(before: Log, was: map<DeliveryId, Sidecar>, decided: Log, after: Log, sidecars: map<DeliveryId, Sidecar>,
                  decisions: seq<Decision>, now: Time)
    requires OneEach(before) && DistinctIds(decisions) && Progress(before, was, decided, sidecars, decisions, |decisions|, now)
    requires forall id :: Tidied(DeliveryOf(decided, id), EveryOf(decided, id.goal), DeliveryOf(after, id), Known(decisions), now)
    ensures Whole(before, was, after, sidecars, decisions, now)
  {
    hide Tended, Tidied, Filed, Answers, Handled, StillOrClosed, Named;
    Collections.TakeAll(decisions);
    forall id ensures Tended(DeliveryOf(before, id), EveryOf(before, id.goal), DeliveryOf(after, id), decisions, now) {
      if Named(before, id, decisions) {
        NamedTended(before, decided, after, id, decisions, now);
      } else {
        NotNamedTended(before, decided, after, id, decisions, now);
      }
    }
  }

  lemma NamedTended(before: Log, decided: Log, after: Log, id: DeliveryId, decisions: seq<Decision>, now: Time)
    requires Named(before, id, decisions) && StillOrClosed(before, decided, id)
    requires forall d | d in decisions :: Answers(before, decided, id, d, now) && Handled(decided, d)
    requires Tidied(DeliveryOf(decided, id), EveryOf(decided, id.goal), DeliveryOf(after, id), Known(decisions), now)
    ensures Tended(DeliveryOf(before, id), EveryOf(before, id.goal), DeliveryOf(after, id), decisions, now)
  {
    hide Follows, Orphaned, Reminds;
    var d := DeliveryOf(before, id).value;
    var c :| c in decisions && Decided(c) && d.approval == Some(c.id);
    assert Handled(decided, c);
    DoneStays(DeliveryOf(decided, id), Known(decisions), now);
    forall x | x in decisions && Decided(x) && d.approval == Some(x.id)
      ensures Follows(x.verdict, d, EveryOf(before, id.goal), DeliveryOf(decided, id).value, now)
    {
      assert x in [x] && Answers(before, decided, id, x, now);
    }
  }

  lemma NotNamedTended(before: Log, decided: Log, after: Log, id: DeliveryId, decisions: seq<Decision>, now: Time)
    requires !Named(before, id, decisions) && DeliveryOf(decided, id) == DeliveryOf(before, id)
    requires EveryOf(decided, id.goal) == EveryOf(before, id.goal)
    requires Tidied(DeliveryOf(decided, id), EveryOf(decided, id.goal), DeliveryOf(after, id), Known(decisions), now)
    ensures Tended(DeliveryOf(before, id), EveryOf(before, id.goal), DeliveryOf(after, id), decisions, now)
  {
    hide HasFailed;
  }

  lemma QuietWatched(log: Log, decisions: seq<Decision>, now: Time)
    ensures Quiet(log, decisions, now) ==> forall id :: !Overdue(DeliveryOf(log, id), now)
  {
    hide Overdue;
  }

  lemma DoneStays(d: Option<Delivery>, known: set<nat>, now: Time)
    requires d.Some? && Done(d.value)
    ensures !Orphaned(d, known) && !Reminds(d, now)
  {
  }

  lemma NextAnswers(before: Log, last: Log, after: Log, decisions: seq<Decision>, i: nat, now: Time)
    requires i < |decisions| && DistinctIds(decisions) && SameEvery(before, last)
    requires forall id :: StillOrClosed(before, last, id)
    requires forall id :: Named(before, id, decisions[..i]) || DeliveryOf(last, id) == DeliveryOf(before, id)
    requires forall id :: Named(last, id, [decisions[i]]) || DeliveryOf(after, id) == DeliveryOf(last, id)
    requires forall id, d | d in decisions[..i] :: Answers(before, last, id, d, now)
    requires forall id :: Answers(last, after, id, decisions[i], now)
    ensures forall id, d | d in decisions[..i + 1] :: Answers(before, after, id, d, now)
  {
    hide Follows;
    Collections.TakeNext(decisions, i);
    forall id, d | d in decisions[..i + 1] && Named(before, id, [d]) ensures Answers(before, after, id, d, now) {
      assert StillOrClosed(before, last, id);
      assert d in [d] && forall c | c in [d] :: c == d;
      if d in decisions[..i] {
        assert Answers(before, last, id, d, now);
        NotNamed(last, id, d, decisions, i);
      } else {
        NotNamedBefore(before, id, decisions, i);
        assert Answers(last, after, id, d, now) && EveryOf(last, id.goal) == EveryOf(before, id.goal);
      }
    }
  }

  /** No two decisions are about one delivery. */
  lemma NotNamed(log: Log, id: DeliveryId, d: Decision, decisions: seq<Decision>, i: nat)
    requires i < |decisions| && DistinctIds(decisions) && d in decisions[..i]
    requires DeliveryOf(log, id).Some? && DeliveryOf(log, id).value.approval == Some(d.id)
    ensures !Named(log, id, [decisions[i]])
  {
    var k :| 0 <= k < i && decisions[k] == d;
  }

  lemma NotNamedBefore(log: Log, id: DeliveryId, decisions: seq<Decision>, i: nat)
    requires i < |decisions| && DistinctIds(decisions) && Named(log, id, [decisions[i]])
    ensures !Named(log, id, decisions[..i])
  {
    if Named(log, id, decisions[..i]) {
      var d :| d in decisions[..i] && Decided(d) && DeliveryOf(log, id).value.approval == Some(d.id);
      NotNamed(log, id, d, decisions, i);
    }
  }

  lemma NextFiled(before: Log, was: map<DeliveryId, Sidecar>, last: Log, files: map<DeliveryId, Sidecar>, sidecars: map<DeliveryId, Sidecar>,
                  decisions: seq<Decision>, i: nat, now: Time)
    requires i < |decisions| && DistinctIds(decisions)
    requires forall id :: StillOrClosed(before, last, id)
    requires forall id :: Named(before, id, decisions[..i]) || DeliveryOf(last, id) == DeliveryOf(before, id)
    requires Filed(before, was, files, decisions[..i], now) && Filed(last, files, sidecars, [decisions[i]], now)
    ensures Filed(before, was, sidecars, decisions[..i + 1], now)
  {
    forall id ensures SideOf(sidecars, id) == if Results(DeliveryOf(before, id), decisions[..i + 1]) then Some(Sidecar(now, NO_USAGE))
                                              else SideOf(was, id)
    {
      assert StillOrClosed(before, last, id);
      ResultsNext(before, last, id, decisions, i);
    }
  }

  lemma ResultsNext(before: Log, last: Log, id: DeliveryId, decisions: seq<Decision>, i: nat)
    requires i < |decisions| && DistinctIds(decisions) && StillOrClosed(before, last, id)
    requires Named(before, id, decisions[..i]) || DeliveryOf(last, id) == DeliveryOf(before, id)
    ensures Results(DeliveryOf(before, id), decisions[..i + 1])
            <==> Results(DeliveryOf(before, id), decisions[..i]) || Results(DeliveryOf(last, id), [decisions[i]])
  {
    Collections.TakeNext(decisions, i);
    var d := DeliveryOf(before, id);
    var c := decisions[i];
    assert forall x | x in decisions[..i + 1] :: x in decisions[..i] || x == c;
    assert c in [c] && c in decisions[..i + 1] && forall x | x in decisions[..i] :: x in decisions[..i + 1];
    if d.Some? && Decided(c) && d.value.approval == Some(c.id) {
      assert Named(before, id, [c]);
      NotNamedBefore(before, id, decisions, i);
    }
  }

  lemma NextNamed(before: Log, last: Log, after: Log, decisions: seq<Decision>, i: nat)
    requires i < |decisions|
    requires forall id :: Named(before, id, decisions[..i]) || DeliveryOf(last, id) == DeliveryOf(before, id)
    requires forall id :: Named(last, id, [decisions[i]]) || DeliveryOf(after, id) == DeliveryOf(last, id)
    ensures forall id :: Named(before, id, decisions[..i + 1]) || DeliveryOf(after, id) == DeliveryOf(before, id)
  {
    Collections.TakeNext(decisions, i);
    forall id | !Named(before, id, decisions[..i + 1]) ensures DeliveryOf(after, id) == DeliveryOf(before, id) {
      assert decisions[i] in decisions[..i + 1];
      assert forall d | d in decisions[..i] :: d in decisions[..i + 1];
      assert !Named(before, id, decisions[..i]) && DeliveryOf(last, id) == DeliveryOf(before, id);
      assert !Named(last, id, [decisions[i]]);
    }
  }

  lemma NextHandled(last: Log, after: Log, decisions: seq<Decision>, i: nat)
    requires i < |decisions| && (forall d | d in decisions[..i] :: Handled(last, d)) && Handled(after, decisions[i])
    requires forall id :: StillOrClosed(last, after, id)
    ensures forall d | d in decisions[..i + 1] :: Handled(after, d)
  {
    Collections.TakeNext(decisions, i);
    forall d | d in decisions[..i + 1] ensures Handled(after, d) {
      if d != decisions[i] {
        assert d in decisions[..i];
        HandledStays(last, after, d);
      }
    }
  }

  lemma NextExtends(before: Log, last: Log, after: Log, decisions: seq<Decision>, i: nat)
    requires i < |decisions| && Extends(before, last, decisions[..i]) && Extends(last, after, [decisions[i]])
    requires forall id :: StillOrClosed(before, last, id)
    ensures Extends(before, after, decisions[..i + 1])
  {
    Collections.TakeNext(decisions, i);
    forall k | |before| <= k < |after| && after[k].OfDelivery? ensures Named(before, after[k].id, decisions[..i + 1]) {
      assert StillOrClosed(before, last, after[k].id);
      assert decisions[i] in decisions[..i + 1] && forall d | d in decisions[..i] :: d in decisions[..i + 1];
      if k < |last| {
        assert last[k] == after[k];
      }
    }
  }

  // Looking an approval up when the log has gone on with other deliveries.

  lemma {:induction false} WaitingSkips(before: Log, after: Log, k: nat, reference: nat)
    requires |before| <= k <= |after|
    requires forall i | |before| <= i < |after| && after[i].OfDelivery? :: !Names(after, after[i].id, Approval, reference)
    ensures Waiting(after[..k], after, Approval, reference) == Waiting(after[..|before|], after, Approval, reference)
  {
    if k > |before| {
      assert after[..k][..k - 1] == after[..k - 1];
      WaitingSkips(before, after, k - 1, reference);
    }
  }

  lemma {:induction false} WaitingSame(part: Log, before: Log, after: Log, reference: nat)
    requires forall id :: Names(after, id, Approval, reference) <==> Names(before, id, Approval, reference)
    ensures Waiting(part, after, Approval, reference) == Waiting(part, before, Approval, reference)
  {
    if part != [] {
      WaitingSame(part[..|part| - 1], before, after, reference);
    }
  }

  lemma WaitingStays(before: Log, after: Log, reference: nat)
    requires before <= after
    requires forall id :: Names(after, id, Approval, reference) <==> Names(before, id, Approval, reference)
    requires forall i | |before| <= i < |after| && after[i].OfDelivery? :: !Names(after, after[i].id, Approval, reference)
    ensures Waiting(after, after, Approval, reference) == Waiting(before, before, Approval, reference)
  {
    assert after[..|after|] == after && after[..|before|] == before;
    WaitingSkips(before, after, |after|, reference);
    WaitingSame(before, before, after, reference);
  }

  /** Settling other decisions does not touch the delivery this one is about. */
  lemma StrandsSame(before: Log, last: Log, decisions: seq<Decision>, i: nat)
    requires i < |decisions| && DistinctIds(decisions)
    requires Extends(before, last, decisions[..i])
    requires forall id :: StillOrClosed(before, last, id)
    requires forall id :: Named(before, id, decisions[..i]) || DeliveryOf(last, id) == DeliveryOf(before, id)
    ensures Strands(last, decisions[i]) <==> Strands(before, decisions[i])
  {
    var reference := decisions[i].id;
    forall id
      ensures Names(last, id, Approval, reference) <==> Names(before, id, Approval, reference)
      ensures Names(before, id, Approval, reference) ==> !Named(before, id, decisions[..i])
    {
      assert StillOrClosed(before, last, id);
    }
    forall k | |before| <= k < |last| && last[k].OfDelivery? ensures !Names(last, last[k].id, Approval, reference) {
      assert Named(before, last[k].id, decisions[..i]);
    }
    WaitingStays(before, last, reference);
  }

  /** Some delivery that names the approval has moved on. */
  ghost predicate SomeStranded(log: Log, reference: nat) {
    exists id :: Stranded(DeliveryOf(log, id), reference)
  }

  lemma StrandsFound(log: Log, decision: Decision)
    requires Legal(log) && OneEach(log)
    ensures Strands(log, decision) <==> decision.linked && decision.verdict.Carried? && SomeStranded(log, decision.id)
  {
    Unlisted(log, decision.id);
    var found := Waiting(log, log, Approval, decision.id);
    if found.Some? {
      assert Names(log, found.value, Approval, decision.id);
      if MovedOn(DeliveryOf(log, found.value).value) {
        assert Stranded(DeliveryOf(log, found.value), decision.id);
      }
    }
    if SomeStranded(log, decision.id) {
      var id :| Stranded(DeliveryOf(log, id), decision.id);
      assert found.Some? && found.value == id;
    }
  }

  lemma ReplacedPhased(before: Log, watched: Log, decisions: seq<Decision>, now: Time)
    requires Legal(watched) && OneEach(watched) && forall id :: Watched(before, watched, id, now)
    ensures forall d | d in decisions :: Strands(watched, d) <==> StrandsAt(before, d, now)
  {
    forall id ensures DeliveryOf(watched, id) == Phased(before, id, now) {
      assert Watched(before, watched, id, now);
    }
    forall d | d in decisions ensures Strands(watched, d) <==> StrandsAt(before, d, now) {
      StrandsFound(watched, d);
      if SomeStranded(watched, d.id) {
        var id :| Stranded(DeliveryOf(watched, id), d.id);
        assert Stranded(Phased(before, id, now), d.id);
      }
      if StrandsAt(before, d, now) {
        var id :| Stranded(Phased(before, id, now), d.id);
        assert Stranded(DeliveryOf(watched, id), d.id);
      }
    }
  }

  lemma ReplacedNamed(before: Log, watched: Log, decisions: seq<Decision>, now: Time)
    requires forall id :: Watched(before, watched, id, now)
    ensures forall id :: Named(watched, id, decisions) <==> Named(before, id, decisions)
    ensures forall id :: DeliveryOf(watched, id) == Phased(before, id, now)
  {
    forall id
      ensures Named(watched, id, decisions) <==> Named(before, id, decisions)
      ensures DeliveryOf(watched, id) == Phased(before, id, now)
    {
      assert Watched(before, watched, id, now);
      if DeliveryOf(before, id).Some? {
        OverrunNames(DeliveryOf(before, id), now);
      }
    }
  }

  /** The one delivery found is the one the decision is about. */
  lemma FoundAnswers(before: Log, after: Log, decision: Decision, now: Time)
    requires Legal(before) && Decided(decision)
    requires var found := Waiting(before, before, Approval, decision.id);
             found.Some? ==> Answers(before, after, found.value, decision, now)
    ensures OneEach(before) ==> forall id :: Answers(before, after, id, decision, now)
  {
    hide Follows;
    Unlisted(before, decision.id);
  }

  lemma FoundFiled(before: Log, was: map<DeliveryId, Sidecar>, sidecars: map<DeliveryId, Sidecar>, decision: Decision, now: Time)
    requires Legal(before) && Decided(decision)
    requires var found := Waiting(before, before, Approval, decision.id);
             sidecars == if found.Some? && decision.verdict == Carried(true) && Resolvable(DeliveryOf(before, found.value).value)
                         then was[found.value := Sidecar(now, NO_USAGE)] else was
    ensures OneEach(before) ==> Filed(before, was, sidecars, [decision], now)
  {
    Unlisted(before, decision.id);
    assert decision in [decision];
  }

  /** What a change to the one delivery found means for all. */
  lemma OnlyFound(before: Log, after: Log, decision: Decision, raised: bool)
    requires Legal(before) && Decided(decision)
    requires var found := Waiting(before, before, Approval, decision.id);
             if after == before then
               !raised ==> found.None? || Done(DeliveryOf(before, found.value).value)
             else
               && found.Some? && !Done(DeliveryOf(before, found.value).value) && DeliveryOf(after, found.value).Some?
               && Closed(DeliveryOf(after, found.value).value)
               && DeliveryOf(after, found.value).value.approval == Some(decision.id)
               && forall id | id != found.value :: DeliveryOf(after, id) == DeliveryOf(before, id)
    ensures Handled(before, decision) ==> after == before
    ensures OneEach(before) && !raised ==> Handled(after, decision)
    ensures OneEach(before) ==> OneEach(after)
    ensures forall id :: StillOrClosed(before, after, id)
    ensures forall id :: Named(before, id, [decision]) || DeliveryOf(after, id) == DeliveryOf(before, id)
    ensures after != before ==> Named(before, Waiting(before, before, Approval, decision.id).value, [decision])
  {
    assert decision in [decision];
    Unlisted(before, decision.id);
    var found := Waiting(before, before, Approval, decision.id);
    if found.Some? {
      assert DeliveryOf(before, found.value).value.approval == Some(decision.id);
    }
  }

  /** A delivery is as it was, or it is done and still names the approval it named. */
  ghost predicate StillOrClosed(before: Log, after: Log, id: DeliveryId) {
    || DeliveryOf(after, id) == DeliveryOf(before, id)
    || (DeliveryOf(before, id).Some? && DeliveryOf(after, id).Some? && Closed(DeliveryOf(after, id).value)
        && DeliveryOf(after, id).value.approval == DeliveryOf(before, id).value.approval)
  }

  /** Looking an approval up fails only when no delivery names it. */
  lemma Unlisted(log: Log, reference: nat)
    requires Legal(log)
    ensures Waiting(log, log, Approval, reference).None? ==>
              forall id | DeliveryOf(log, id).Some? :: DeliveryOf(log, id).value.approval != Some(reference)
  {
    forall id | DeliveryOf(log, id).Some? ensures exists e :: e in log && e.OfDelivery? && e.id == id {
      HasEvent(log, id);
    }
  }

  lemma {:induction false} HasEvent(log: Log, id: DeliveryId)
    requires DeliveryOf(log, id).Some?
    ensures exists e :: e in log && e.OfDelivery? && e.id == id
  {
    var before, e := log[..|log| - 1], log[|log| - 1];
    if Touches(e, id) {
      assert e in log;
    } else {
      HasEvent(before, id);
      var f :| f in before && f.OfDelivery? && f.id == id;
      assert f in log;
    }
  }

  lemma StillOrClosedTwice(a: Log, b: Log, c: Log)
    requires (forall id :: StillOrClosed(a, b, id)) && (forall id :: StillOrClosed(b, c, id))
    ensures forall id :: StillOrClosed(a, c, id)
  {
    forall id ensures StillOrClosed(a, c, id) {
      assert StillOrClosed(a, b, id) && StillOrClosed(b, c, id);
    }
  }

  lemma HandledStays(before: Log, after: Log, d: Decision)
    requires Handled(before, d) && forall id :: StillOrClosed(before, after, id)
    ensures Handled(after, d)
  {
    forall id | DeliveryOf(after, id).Some? && DeliveryOf(after, id).value.approval == Some(d.id)
      ensures Decided(d) ==> Done(DeliveryOf(after, id).value)
    {
      assert StillOrClosed(before, after, id);
    }
  }

  ghost predicate Watched(before: Log, after: Log, id: DeliveryId, now: Time) {
    && !Overdue(DeliveryOf(after, id), now)
    && var d := DeliveryOf(before, id); DeliveryOf(after, id) == AfterOne(d, Overdue(d, now), Overrun(d, now))
  }

  lemma OverrunNames(d: Option<Delivery>, now: Time)
    requires d.Some?
    ensures AfterOne(d, Overdue(d, now), Overrun(d, now)).Some?
    ensures AfterOne(d, Overdue(d, now), Overrun(d, now)).value.approval == d.value.approval
  {
  }

  lemma WatchedApart(before: Log, after: Log, now: Time)
    requires OneEach(before) && forall id :: Watched(before, after, id, now)
    ensures OneEach(after)
  {
    forall id ensures DeliveryOf(after, id).Some? <==> DeliveryOf(before, id).Some?
      ensures DeliveryOf(after, id).Some? ==> DeliveryOf(after, id).value.approval == DeliveryOf(before, id).value.approval
    {
      assert Watched(before, after, id, now);
      if DeliveryOf(before, id).Some? {
        OverrunNames(DeliveryOf(before, id), now);
      }
    }
  }

  /** A delivery is as it was, or it has come to an end. */
  ghost predicate Finishes(before: Log, after: Log, id: DeliveryId) {
    || DeliveryOf(after, id) == DeliveryOf(before, id)
    || (DeliveryOf(after, id).Some? && Ended(DeliveryOf(after, id).value) && IsTerminal(DeliveryOf(after, id).value))
  }

  lemma EndsTwice(a: Log, b: Log, c: Log)
    requires (forall id :: Finishes(a, b, id)) && (forall id :: Finishes(b, c, id))
    ensures forall id :: Finishes(a, c, id)
  {
    forall id ensures Finishes(a, c, id) {
      assert Finishes(a, b, id) && Finishes(b, c, id);
    }
  }

  lemma EndsQuiet(watched: Log, decided: Log, after: Log, decisions: seq<Decision>, now: Time)
    requires forall id :: !Overdue(DeliveryOf(watched, id), now)
    requires (forall id :: Finishes(watched, after, id)) && (forall id :: Finishes(decided, after, id))
    requires forall id :: !Orphaned(DeliveryOf(after, id), Known(decisions)) && !Reminds(DeliveryOf(after, id), now)
    ensures (forall d | d in decisions :: Handled(decided, d)) ==> Quiet(after, decisions, now)
  {
    forall id ensures !Overdue(DeliveryOf(after, id), now) {
      assert Finishes(watched, after, id);
    }
    forall d | d in decisions && Handled(decided, d) ensures Handled(after, d) {
      forall id | DeliveryOf(after, id).Some? && DeliveryOf(after, id).value.approval == Some(d.id)
        ensures Decided(d) ==> Done(DeliveryOf(after, id).value)
      {
        assert Finishes(decided, after, id);
      }
    }
  }

  // Startup.

  /** It was put back, and has not been drained. */
  predicate Undrained(d: Option<Delivery>) {
    d.Some? && !d.value.status.Draining? && !IsTerminal(d.value) && !d.value.status.Failed?
  }

  ghost predicate EndedDrain(before: Log, after: Log, id: DeliveryId, now: Time) {
    DeliveryOf(before, id).Some? && DeliveryOf(before, id).value.status.Draining? && !IsTerminal(DeliveryOf(before, id).value) ==>
      GoalOf(before, id.goal).Some?
      && DeliveryOf(after, id) == Some(Drained(DeliveryOf(before, id).value, GoalOf(before, id.goal).value, now))
  }

  lemma DrainedEvery(d: Delivery, g: Goal, h: Goal, now: Time)
    requires g.every == h.every
    ensures Drained(d, g, now) == Drained(d, h, now)
  {
    StepEvery(d, g, h, d.phase != Some(ApplyPhase), None, now);
  }

  /** What a decision meets once everything overdue has been failed. */
  ghost predicate StrandsOnTime(log: Log, decision: Decision, now: Time) {
    decision.linked && decision.verdict.Carried?
    && exists id :: Stranded(DeliveryOf(log, id), decision.id) && !Overdue(DeliveryOf(log, id), now)
  }

  /** Nothing has changed that a failure depends on. */
  predicate SameCourse(d: Delivery, e: Delivery) {
    && e.attempt == d.attempt && e.scheduleAdvanced == d.scheduleAdvanced && e.continuation == d.continuation
    && e.nextWakeAt == d.nextWakeAt && e.phase == d.phase
  }

  ghost predicate DrainedAt(before: Log, watched: Log, id: DeliveryId, now: Time) {
    var d, e := DeliveryOf(before, id), DeliveryOf(watched, id);
    if Overdue(d, now)
    then e.Some? && e.value.status.Draining? && !IsTerminal(e.value) && e.value.approval == d.value.approval && SameCourse(d.value, e.value)
    else e == d
  }

  ghost predicate EndedAt(before: Log, after: Log, id: DeliveryId, now: Time) {
    var d, e := DeliveryOf(before, id), DeliveryOf(after, id);
    && !Overdue(e, now) && (e.Some? ==> !InHand(e.value))
    && if Overdue(d, now) then e.Some? && e.value.status.Failed? && e.value.approval == d.value.approval else e == d
  }

  /** What is overdue at startup is failed, an approved action that was being applied for good. */
  ghost predicate TimedOut(d: Option<Delivery>, every: nat, e: Option<Delivery>, now: Time) {
    if Overdue(d, now) then e.Some? && HasFailed(d.value, every, e.value, d.value.phase != Some(ApplyPhase), now) else e == d
  }

  lemma TimesOut(d: Delivery, b: Delivery, g: Goal, now: Time)
    requires SameCourse(d, b)
    ensures HasFailed(d, g.every, Drained(b, g, now), d.phase != Some(ApplyPhase), now)
  {
    hide Failing, Stepped;
    FailureIs(b, g, b.phase != Some(ApplyPhase), now, NO_USAGE);
  }

  lemma DrainedPhase(before: Log, watched: Log, id: DeliveryId, now: Time)
    requires var d := DeliveryOf(before, id); DeliveryOf(watched, id) == AfterOne(d, Overdue(d, now), Overrun(d, now))
    requires DeliveryOf(before, id).Some? ==> !InHand(DeliveryOf(before, id).value)
    ensures DrainedAt(before, watched, id, now)
  {
  }

  lemma DrainedEnds(d: Delivery, g: Goal, now: Time)
    ensures var e := Drained(d, g, now);
            e.status.Failed? && e.approval == d.approval && !Overdue(Some(e), now) && !InHand(e)
  {
  }

  lemma EndedPhase(before: Log, watched: Log, after: Log, id: DeliveryId, now: Time)
    requires DrainedAt(before, watched, id, now)
    requires DeliveryOf(before, id).Some? ==> !InHand(DeliveryOf(before, id).value)
    requires if Overdue(DeliveryOf(before, id), now)
             then GoalOf(watched, id.goal).Some?
                  && DeliveryOf(after, id) == Some(Drained(DeliveryOf(watched, id).value, GoalOf(watched, id.goal).value, now))
             else DeliveryOf(after, id) == DeliveryOf(watched, id)
    requires EveryOf(watched, id.goal) == EveryOf(before, id.goal)
    ensures EndedAt(before, after, id, now)
    ensures TimedOut(DeliveryOf(before, id), EveryOf(before, id.goal), DeliveryOf(after, id), now)
  {
    hide Drained, HasFailed;
    if Overdue(DeliveryOf(before, id), now) {
      TimesOut(DeliveryOf(before, id).value, DeliveryOf(watched, id).value, GoalOf(watched, id.goal).value, now);
      DrainedEnds(DeliveryOf(watched, id).value, GoalOf(watched, id.goal).value, now);
    }
  }

  lemma EndedNames(before: Log, after: Log, decisions: seq<Decision>, now: Time)
    requires Legal(after) && forall id :: EndedAt(before, after, id, now)
    ensures OneEach(before) ==> OneEach(after)
    ensures OneEach(before) ==> forall d | d in decisions :: Strands(after, d) <==> StrandsOnTime(before, d, now)
    ensures forall id :: !Overdue(DeliveryOf(after, id), now)
  {
    forall id
      ensures !Overdue(DeliveryOf(after, id), now)
      ensures DeliveryOf(after, id).Some? <==> DeliveryOf(before, id).Some?
      ensures DeliveryOf(after, id).Some? ==> DeliveryOf(after, id).value.approval == DeliveryOf(before, id).value.approval
    {
      assert EndedAt(before, after, id, now);
    }
    if OneEach(before) {
      forall d | d in decisions ensures Strands(after, d) <==> StrandsOnTime(before, d, now) {
        StrandsFound(after, d);
        EndedStrands(before, after, d, now);
      }
    }
  }

  lemma EndedStrands(before: Log, after: Log, d: Decision, now: Time)
    requires forall id :: EndedAt(before, after, id, now)
    ensures d.linked && d.verdict.Carried? && SomeStranded(after, d.id) <==> StrandsOnTime(before, d, now)
  {
    if SomeStranded(after, d.id) {
      var id :| Stranded(DeliveryOf(after, id), d.id);
      assert EndedAt(before, after, id, now);
      assert Stranded(DeliveryOf(before, id), d.id);
    }
    if StrandsOnTime(before, d, now) {
      var id :| Stranded(DeliveryOf(before, id), d.id) && !Overdue(DeliveryOf(before, id), now);
      assert EndedAt(before, after, id, now);
      assert Stranded(DeliveryOf(after, id), d.id);
    }
  }

  ghost predicate Rested(before: Log, taken: Log, id: DeliveryId, sidecars: map<DeliveryId, Sidecar>, runner: nat, now: Time) {
    && DeliveryOf(taken, id) == TookOver(before, id, sidecars, runner, now)
    && (DeliveryOf(taken, id).Some? ==> !InHand(DeliveryOf(taken, id).value))
    && (DeliveryOf(taken, id).Some? <==> DeliveryOf(before, id).Some?)
    && (DeliveryOf(taken, id).Some? ==> DeliveryOf(taken, id).value.approval == DeliveryOf(before, id).value.approval)
  }

  lemma TakenRests(before: Log, id: DeliveryId, sidecars: map<DeliveryId, Sidecar>, runner: nat, now: Time)
    requires DeliveryOf(before, id).Some? ==> GoalOf(before, id.goal).Some? && DeliveryOf(before, id).value.runner != Some(runner)
    ensures var e := TookOver(before, id, sidecars, runner, now);
            && (e.Some? <==> DeliveryOf(before, id).Some?)
            && (e.Some? ==> !InHand(e.value) && e.value.approval == DeliveryOf(before, id).value.approval)
  {
    hide AfterTakeover;
    if DeliveryOf(before, id).Some? && InHand(DeliveryOf(before, id).value) {
      var d, g := DeliveryOf(before, id).value, GoalOf(before, id.goal).value;
      TakenOverAtRest(d, g, SideOf(sidecars, id), now);
      TakenOverNames(d, g, SideOf(sidecars, id), now);
    }
  }

  lemma TakenOverNames(d: Delivery, g: Goal, side: Option<Sidecar>, now: Time)
    ensures AfterTakeover(d, g, side, now).approval == d.approval
  {
    hide Applied, ReceiptFor, Ends, NextWake, Backoff;
    var e := Stepped(d, GoalLog.Drain(ApplyPhase));
    AppliedApproval(d, Failing(d, g, d.retryable, now, NO_USAGE));
    AppliedApproval(d, GoalLog.Drain(ApplyPhase));
    AppliedApproval(e, Failing(e, g, false, now, NO_USAGE));
    AppliedApproval(d, if side.Some? then Recovery(d, g, side.value) else Interrupt(None, true));
    AppliedApproval(d, Interrupt(Some(now), false));
  }

  lemma TakenNames(before: Log, taken: Log, decisions: seq<Decision>, sidecars: map<DeliveryId, Sidecar>, runner: nat, now: Time)
    requires forall id :: Rested(before, taken, id, sidecars, runner, now)
    ensures OneEach(before) ==> OneEach(taken)
    ensures forall d | d in decisions :: StrandsOnTime(taken, d, now) <==> StrandsAtStart(before, d, sidecars, runner, now)
    ensures forall id | DeliveryOf(taken, id).Some? :: !InHand(DeliveryOf(taken, id).value)
  {
    forall id
      ensures DeliveryOf(taken, id) == TookOver(before, id, sidecars, runner, now)
      ensures DeliveryOf(taken, id).Some? ==> !InHand(DeliveryOf(taken, id).value)
      ensures DeliveryOf(taken, id).Some? <==> DeliveryOf(before, id).Some?
      ensures DeliveryOf(taken, id).Some? ==> DeliveryOf(taken, id).value.approval == DeliveryOf(before, id).value.approval
    {
      assert Rested(before, taken, id, sidecars, runner, now);
    }
    forall d | d in decisions ensures StrandsOnTime(taken, d, now) <==> StrandsAtStart(before, d, sidecars, runner, now) {
      if StrandsOnTime(taken, d, now) {
        var id :| Stranded(DeliveryOf(taken, id), d.id) && !Overdue(DeliveryOf(taken, id), now);
        assert Stranded(TookOver(before, id, sidecars, runner, now), d.id);
      }
      if StrandsAtStart(before, d, sidecars, runner, now) {
        var id :| Stranded(TookOver(before, id, sidecars, runner, now), d.id)
                  && !Overdue(TookOver(before, id, sidecars, runner, now), now);
        assert Stranded(DeliveryOf(taken, id), d.id);
      }
    }
  }
}
