/** Runs of the store's own operations that reach what its invariants leave open.

    A host that dies is a store that is not used any more, and another that opens the
    same log and the same result files. */
module GoalRuns {
  import opened FileSystem
  import opened UsageTotals
  import opened GoalLog
  import opened GoalHistory
  import opened GoalStore
  import opened GoalWatchdog

  const OWNER := Owner("chat", "", "")
  const ID := DeliveryId(0, 0)
  const HOUR: int := 60 * 60 * SECOND

  /** The one delivery of the run, and the goal it belongs to. */
  ghost predicate Here(log: Log, d: Delivery, g: Goal) {
    && DeliveryOf(log, ID) == Some(d) && GoalOf(log, 0) == Some(g) && g.status.Active? && g.owner == OWNER
    && forall x | x != ID :: DeliveryOf(log, x).None?
  }

  /** The delivery was touched last, so that it is the first to be found. */
  ghost predicate At(log: Log, d: Delivery, g: Goal) {
    Here(log, d, g) && log != [] && log[|log| - 1].OfDelivery? && log[|log| - 1].id == ID
  }

  lemma AtStep(log: Log, d: Delivery, g: Goal, s: Step)
    requires Here(log, d, g)
    ensures At(log + [EventFor(ID, d, s)], Stepped(d, s), Touched(g, s))
  {
    StepEffect(log, ID, s);
    TouchedKeeps(g, s);
  }

  lemma TouchedKeeps(g: Goal, s: Step)
    ensures Touched(g, s).status == g.status && Touched(g, s).owner == g.owner && Touched(g, s).every == g.every
  {
  }

  lemma FoundLast(log: Log, d: Delivery, g: Goal, kind: Kind, reference: nat)
    requires At(log, d, g) && (if kind.Approval? then d.approval else d.question) == Some(reference)
    ensures Waiting(log, log, kind, reference) == Some(ID)
  {
  }

  lemma OneListed(log: Log, d: Delivery, g: Goal)
    requires Legal(log) && Here(log, d, g)
    ensures AllIds(log) == [ID] && IdsOf(log, 0) == [ID]
  {
    AllListed(log);
    IdsListed(log, 0);
    OnlyMember(AllIds(log), ID);
    OnlyMember(IdsOf(log, 0), ID);
  }

  lemma OnlyMember(ids: seq<DeliveryId>, id: DeliveryId)
    requires Distinct(ids) && id in ids && forall x | x in ids :: x == id
    ensures ids == [id]
  {
    DistinctSize(ids, {id});
    assert ids[0] in ids;
  }

  ghost predicate Unaltered(d: Delivery, e: Delivery) {
    && e.answered == d.answered && e.continuation == d.continuation && e.attempt == d.attempt && e.usage == d.usage
    && e.runner == d.runner && e.consumeRetry == d.consumeRetry && e.resultAvailable == d.resultAvailable
  }

  ghost predicate Unused(d: Delivery) {
    && !d.answered && !Already(d) && d.attempt == 1 && !d.consumeRetry && d.usage == NO_USAGE
    && d.approval.None? && d.question.None? && d.kind.None? && !d.resultAvailable
  }

  lemma RunsAfter(log: Log, e: Event)
    ensures RunsOf(log + [e], ID) == RunsOf(log, ID) + One(Touches(e, ID) && e.step.Begin?)
  {
    assert (log + [e])[..|log|] == log;
  }

  /** An empty store with one goal that is due. */
  method Created(runner: nat) returns (store: Store, ghost g: Goal)
    ensures fresh(store) && store.Valid() && store.runner == runner && store.sidecars == map[]
    ensures GoalOf(store.log, 0) == Some(g) && g == Goal(OWNER, Active, 1, Some(0), 60, 0, 0, Some(0), "", 0, "", NO_USAGE)
    ensures (forall x :: DeliveryOf(store.log, x).None?) && RunsOf(store.log, ID) == 0 && IdsOf(store.log, 0) == []
  {
    store := new Store(runner);
    var r := store.CreateGoal(0, "goal", Fields(Some(Some(0)), Some(60)), OWNER, 0);
    g := Goal(OWNER, Active, 1, Some(0), 60, 0, 0, Some(0), "", 0, "", NO_USAGE);
    ghost var e := OfGoal(0, 1, Create(0, Some(0), 60, OWNER));
    assert store.log == [] + [e];
    Appended([], e);
    RunsAfter([], e);
    AdvanceStep([], e, ID, 0);
  }

  lemma WokenIs(l: Log, g: Goal, runner: nat)
    requires GoalOf(l, 0) == Some(g) && g.status.Active? && g.owner == OWNER
    requires (forall x :: DeliveryOf(l, x).None?) && RunsOf(l, ID) == 0
    ensures var deadline := Deadline(0, Phase.Wake);
            var log := l + [OfDelivery(ID, 1, Add(deadline, runner, OWNER)), OfDelivery(ID, 2, Claim(deadline, runner, 1))];
            At(log, Stepped(Added(1, deadline, runner, OWNER), Claim(deadline, runner, 1)), g) && RunsOf(log, ID) == 0
  {
    var deadline := Deadline(0, Phase.Wake);
    var add, d := OfDelivery(ID, 1, Add(deadline, runner, OWNER)), Added(1, deadline, runner, OWNER);
    var claim := EventFor(ID, d, Claim(deadline, runner, 1));
    Appended(l, add);
    RunsAfter(l, add);
    AtStep(l + [add], d, g, claim.step);
    RunsAfter(l + [add], claim);
    assert l + [add, claim] == (l + [add]) + [claim];
  }

  /** A goal is created and woken, and its first occurrence begun. */
  method Begun(runner: nat) returns (store: Store, ghost d: Delivery, ghost g: Goal)
    ensures fresh(store) && store.Valid() && store.runner == runner && store.sidecars == map[]
    ensures At(store.log, d, g) && g.every == 60 && g.wakeCount == 0 && g.wakeAt == Some(0) && RunsOf(store.log, ID) == 1
    ensures d.status.Running? && !d.terminal && d.runner == Some(runner) && Unused(d)
  {
    hide Legal, GoalOf, DeliveryOf, RunsOf, Possible;
    store, g := Created(runner);
    ghost var l := store.log;
    var r := store.Wake(0, OWNER, 0, 0);
    WokenIs(l, g, runner);
    d := Stepped(Added(1, Deadline(0, Phase.Wake), runner, OWNER), Claim(Deadline(0, Phase.Wake), runner, 1));
    d, g := BeginAgain(store, d, g);
  }

  /** An occurrence that waits for nothing is begun. */
  method BeginAgain(store: Store, ghost d: Delivery, ghost g: Goal) returns (ghost e: Delivery, ghost h: Goal)
    requires store.Valid() && At(store.log, d, g) && !IsTerminal(d) && Startable(d) && ID !in store.sidecars
    modifies store`log
    ensures store.Valid() && At(store.log, e, h) && h == g && RunsOf(store.log, ID) == RunsOf(old(store.log), ID) + 1
    ensures e == Stepped(d, GoalLog.Begin(store.runner)) && e.status.Running? && !e.terminal && e.runner == Some(store.runner)
  {
    hide Legal, RunsOf, Possible;
    ghost var l := store.log;
    var r := store.BeginDelivery(ID, None);
    AtStep(l, d, g, GoalLog.Begin(store.runner));
    RunsAfter(l, EventFor(ID, d, GoalLog.Begin(store.runner)));
    e, h := Stepped(d, GoalLog.Begin(store.runner)), g;
  }

  /** It waits for an approval; the approved action is being applied. */
  method Apply(store: Store, ghost d: Delivery, ghost g: Goal, reference: nat) returns (ghost e: Delivery)
    requires store.Valid() && At(store.log, d, g) && !IsTerminal(d) && !d.status.Draining?
    modifies store`log
    ensures store.Valid() && At(store.log, e, g) && Unaltered(d, e) && !e.scheduleAdvanced && e.question == d.question
    ensures e.status.Applying? && !e.terminal && e.approval == Some(reference) && e.kind == Some(Approval)
  {
    hide Legal, Possible;
    ghost var l := store.log;
    var r := store.Block(ID, Approval, reference, 1, NO_USAGE);
    AtStep(l, d, g, Blocking(d, Approval, reference, 1, NO_USAGE));
    e := Stepped(d, Blocking(d, Approval, reference, 1, NO_USAGE));
    e := ApplyAgain(store, e, g, reference);
  }

  method ApplyAgain(store: Store, ghost d: Delivery, ghost g: Goal, reference: nat) returns (ghost e: Delivery)
    requires store.Valid() && At(store.log, d, g) && d.status.Blocked? && d.approval == Some(reference)
    modifies store`log
    ensures store.Valid() && At(store.log, e, g) && Unaltered(d, e) && e.scheduleAdvanced == d.scheduleAdvanced
    ensures e.question == d.question && e.kind == d.kind
    ensures e.status.Applying? && !e.terminal && e.approval == Some(reference)
  {
    hide Legal, Possible;
    ghost var l := store.log;
    FoundLast(l, d, g, Approval, reference);
    var r := store.MarkApprovalPhase(reference, ApplyPhase, Deadline(1, ApplyPhase));
    AtStep(l, d, g, SetApprovalPhase(ApplyPhase, Deadline(1, ApplyPhase)));
    e := Stepped(d, SetApprovalPhase(ApplyPhase, Deadline(1, ApplyPhase)));
  }

  /** It waits for an answer. */
  method Ask(store: Store, ghost d: Delivery, ghost g: Goal, question: nat) returns (ghost e: Delivery)
    requires store.Valid() && At(store.log, d, g) && !IsTerminal(d) && !d.status.Draining?
    modifies store`log
    ensures store.Valid() && At(store.log, e, g) && Unaltered(d, e) && !e.scheduleAdvanced && e.approval == d.approval
    ensures e.status.Blocked? && e.kind == Some(Question) && e.question == Some(question)
  {
    hide Legal, Possible;
    ghost var l := store.log;
    var r := store.Block(ID, Question, question, 1, NO_USAGE);
    AtStep(l, d, g, Blocking(d, Question, question, 1, NO_USAGE));
    e := Stepped(d, Blocking(d, Question, question, 1, NO_USAGE));
  }

  /** The answer comes before the schedule was advanced. */
  method AnswerInTime(store: Store, ghost d: Delivery, ghost g: Goal, question: nat) returns (ghost e: Delivery)
    requires store.Valid() && At(store.log, d, g) && Answerable(d) && d.question == Some(question) && !d.answered && !Already(d)
    modifies store`log
    ensures store.Valid() && At(store.log, e, g) && e.status.Interrupted? && !e.terminal && e.answered && !Already(e)
    ensures e.approval == d.approval && e.attempt == d.attempt && e.deadline.None? && e.question == d.question
  {
    hide Legal, Possible;
    ghost var l := store.log;
    FoundLast(l, d, g, Question, question);
    var r := store.ResolveQuestion(question, "yes");
    assert store.log == l + [EventFor(ID, d, Answer(false))];
    AtStep(l, d, g, Answer(false));
    e := Stepped(d, Answer(false));
  }

  /** The approved action was applied and its result written when the host died: the next host fails it for good. */
  method AppliedResultIsFailed() returns (store: Store)
    ensures store.Valid() && ID in store.sidecars
    ensures store.D(ID).Some? && store.D(ID).value.status.Failed? && store.D(ID).value.terminal && !store.D(ID).value.resultAvailable
  {
    hide Legal, Possible, AfterTakeover, Restarted, AllIds;
    ghost var d, g;
    var before;
    before, d, g := Begun(1);
    d := Apply(before, d, g, 7);
    before.WriteResult(ID, NO_USAGE, 2);
    store := new Store.Reopen(before.log, before.sidecars, 2);
    store.ReconcileStale(3);
    ApplyingLost(d, g, Some(Sidecar(2, NO_USAGE)), 3);
  }

  /** An approved action was carried out for a delivery that has since asked a question and got its answer:
      every pass of the watchdog raises at it. */
  method MovedOnRaises() returns (store: Store, raised: bool, again: bool)
    ensures store.Valid() && raised && again
    ensures store.D(ID).Some? && store.D(ID).value.status.Interrupted? && store.D(ID).value.approval == Some(7)
  {
    ghost var d, g;
    store, d, g := Begun(1);
    d := Apply(store, d, g, 7);
    d := Ask(store, d, g, 8);
    d := AnswerInTime(store, d, g, 8);
    var handled;
    raised, handled := Pass(store, d, Decision(7, true, Carried(true)), 5);
    again, handled := Pass(store, d, Decision(7, true, Carried(true)), 6);
  }

  method Pass(store: Store, ghost d: Delivery, decision: Decision, now: Time) returns (raised: bool, handled: nat)
    requires store.Valid() && DeliveryOf(store.log, ID) == Some(d) && forall x | x != ID :: DeliveryOf(store.log, x).None?
    requires decision.linked && decision.verdict.Carried? && d.approval == Some(decision.id) && MovedOn(d) && d.deadline.None?
    modifies store
    ensures store.Valid() && raised
    ensures DeliveryOf(store.log, ID) == Some(d) && forall x | x != ID :: DeliveryOf(store.log, x).None?
  {
    hide Legal;
    ghost var l := store.log;
    var watchdog := new Watchdog(store, [decision]);
    assert Phased(l, ID, now) == Some(d);
    assert Stranded(Phased(l, ID, now), decision.id);
    assert decision in [decision] && StrandsAt(l, decision, now);
    raised, handled := watchdog.Reconcile(now);
    assert handled == 0 && [decision][..0] == [];
    forall x ensures DeliveryOf(store.log, x) == Phased(l, x, now) {
      assert !Named(l, x, []);
    }
  }

  /** The action is applied a second time and the occurrence parked: it has advanced the schedule. */
  method Advance(store: Store, ghost d: Delivery, ghost g: Goal) returns (ghost e: Delivery, ghost h: Goal)
    requires store.Valid() && At(store.log, d, g) && !IsTerminal(d) && !Already(d)
    modifies store`log
    ensures store.Valid() && At(store.log, e, h) && h.wakeCount == g.wakeCount + 1
    ensures e.status.Parked? && e.scheduleAdvanced && !e.continuation && e.kind == d.kind && e.question == d.question
    ensures e.answered == d.answered && e.attempt == d.attempt
  {
    hide Legal, Possible;
    ghost var l := store.log;
    ghost var s := GoalLog.Park(3, Ends(d, g, 3), ReceiptFor(d, NO_USAGE));
    var r := store.Park(ID, 3, NO_USAGE);
    assert store.log == l + [EventFor(ID, d, s)];
    AtStep(l, d, g, s);
    e, h := Stepped(d, s), Touched(g, s);
  }

  /** The answer comes after the schedule was advanced: the goal is due again for the same occurrence. */
  method AnswerLate(store: Store, ghost d: Delivery, ghost g: Goal, question: nat) returns (ghost e: Delivery, ghost h: Goal)
    requires store.Valid() && At(store.log, d, g) && Answerable(d) && d.question == Some(question) && !d.answered && Already(d)
    modifies store`log
    ensures store.Valid() && Here(store.log, e, h) && h.wakeCount == g.wakeCount && h.wakeAt == Some(0)
    ensures e.status.Interrupted? && !e.terminal && e.continuation && e.attempt == d.attempt && !e.consumeRetry && e.retryAt.None?
  {
    hide Legal, Possible;
    ghost var l := store.log;
    FoundLast(l, d, g, Question, question);
    var r := store.ResolveQuestion(question, "yes");
    AtStep(l, d, g, Answer(true));
    e := Stepped(d, Answer(true));
    ghost var scheduled := OfGoal(0, g.revision + 1, ScheduleContinuation(Some(0)));
    assert store.log == (l + [EventFor(ID, d, Answer(true))]) + [scheduled];
    Appended(l + [EventFor(ID, d, Answer(true))], scheduled);
    h := g.(wakeAt := Some(0), revision := g.revision + 1);
  }

  /** The occurrence is woken and begun once more. */
  method Resume(store: Store, ghost d: Delivery, ghost g: Goal) returns (ghost e: Delivery, ghost h: Goal)
    requires store.Valid() && Here(store.log, d, g) && g.wakeAt == Some(0) && ID !in store.sidecars
    requires d.status.Interrupted? && !d.terminal && d.attempt == 1 && !d.consumeRetry && d.retryAt.None?
    modifies store`log
    ensures store.Valid() && At(store.log, e, h) && h == g
    ensures e.status.Running? && !e.terminal && e.runner == Some(store.runner) && e.continuation == d.continuation
  {
    hide Legal, Possible, RunsOf;
    ghost var l := store.log;
    ghost var s := Claim(Deadline(3, Phase.Wake), store.runner, 1);
    var r := store.Wake(0, OWNER, 3, 0);
    assert store.log == l + [EventFor(ID, d, s)];
    AtStep(l, d, g, s);
    e, h := BeginAgain(store, Stepped(d, s), g);
  }

  /** One occurrence wakes its goal twice: it waits for an approval and then for an answer, is parked before
      the answer comes, is continued, and its host dies between its result and the event that says so. */
  method WokenTwice() returns (store: Store)
    ensures store.Valid() && IdsOf(store.log, 0) == [ID] && AdvancesOf(store.log, ID) == 2
    ensures store.G(0).Some? && store.G(0).value.wakeCount == 2
  {
    hide Legal, Possible, AfterTakeover, Restarted, AllIds, Stepped, Touched;
    ghost var d, g;
    var before;
    before, d, g := Begun(1);
    d := Apply(before, d, g, 7);
    d := Ask(before, d, g, 8);
    d := ApplyAgain(before, d, g, 7);
    d, g := Advance(before, d, g);
    d, g := AnswerLate(before, d, g, 8);
    d, g := Resume(before, d, g);
    before.WriteResult(ID, NO_USAGE, 4);
    store := new Store.Reopen(before.log, before.sidecars, 2);
    store.ReconcileStale(5);
    Recovered(before.log, d, g, store.sidecars, 2, 5);
    AdvancedTwice(store.log, g);
  }

  lemma Recovered(log: Log, d: Delivery, g: Goal, sidecars: map<DeliveryId, Sidecar>, runner: nat, now: Time)
    requires Legal(log) && Here(log, d, g) && d.status.Running? && d.runner != Some(runner) && ID in sidecars
    ensures var after := Restarted(log, AllIds(log), sidecars, runner, now);
            && GoalOf(after, 0).Some? && GoalOf(after, 0).value.wakeCount == g.wakeCount + 1
            && DeliveryOf(after, ID).Some? && forall x | x != ID :: DeliveryOf(after, x).None?
  {
    hide AfterTakeover;
    OneListed(log, d, g);
    GoalKnown(log, ID);
    RestartedEach(log, [ID], sidecars, runner, now);
    RestartedGoal(log, [ID], sidecars, runner, now, ID);
  }

  lemma AdvancedTwice(log: Log, g: Goal)
    requires Legal(log) && DeliveryOf(log, ID).Some? && (forall x | x != ID :: DeliveryOf(log, x).None?)
    requires GoalOf(log, 0).Some? && GoalOf(log, 0).value.wakeCount == 2
    ensures IdsOf(log, 0) == [ID] && AdvancesOf(log, ID) == 2
  {
    IdsListed(log, 0);
    OnlyMember(IdsOf(log, 0), ID);
    GoalRevision(log, 0);
    WakesGather(log, 0);
    assert AdvanceShares(log, [ID]) == [AdvancesOf(log, ID)];
    GatheredAdd(false, [], AdvancesOf(log, ID));
    assert [] + [AdvancesOf(log, ID)] == [AdvancesOf(log, ID)];
  }

  /** The second question of an occurrence is asked and answered, and the occurrence goes on waiting for the answer. */
  method SecondAnswerIsLost() returns (store: Store, r: Reply)
    ensures store.Valid() && r.Fine? && AnswersOf(store.log, ID) == 1
    ensures store.D(ID).Some? && store.D(ID).value.status.Blocked? && store.D(ID).value.question == Some(9)
  {
    hide Legal, Possible;
    ghost var d, g;
    store, d, g := Begun(1);
    d := Ask(store, d, g, 8);
    d := AnswerInTime(store, d, g, 8);
    d, g := BeginAgain(store, d, g);
    d := Ask(store, d, g, 9);
    FoundLast(store.log, d, g, Question, 9);
    r := store.ResolveQuestion(9, "yes");
    AnsweredOnce(store.log, ID);
  }

  lemma RestartedOne(log: Log, d: Delivery, g: Goal, runner: nat, now: Time)
    requires Legal(log) && Here(log, d, g) && d.status.Running? && d.runner != Some(runner)
    ensures Restarted(log, AllIds(log), map[], runner, now) == log + [EventFor(ID, d, Interrupt(None, true))]
  {
    OneListed(log, d, g);
    assert [ID][..0] == [];
  }

  /** Ways back to running that use no attempt. */
  datatype Route = HostDies | Skipped | Failed

  /** The host dies while it runs the occurrence, and the next one begins it again. */
  method DieAndBegin(store: Store, ghost d: Delivery, ghost g: Goal) returns (after: Store, ghost e: Delivery, ghost h: Goal)
    requires store.Valid() && store.sidecars == map[] && Here(store.log, d, g) && g.wakeAt == Some(0)
    requires d.status.Running? && !d.terminal && d.runner == Some(store.runner) && d.attempt == 1
    ensures fresh(after) && after.Valid() && after.sidecars == map[] && At(after.log, e, h) && h.wakeAt == Some(0)
    ensures e.status.Running? && !e.terminal && e.runner == Some(after.runner) && e.attempt == 1
    ensures RunsOf(after.log, ID) == RunsOf(store.log, ID) + 1
  {
    hide Legal, Possible, Restarted, AllIds, RunsOf;
    ghost var l := store.log;
    after := new Store.Reopen(store.log, map[], store.runner + 1);
    after.ReconcileStale(1);
    RestartedOne(l, d, g, after.runner, 1);
    AtStep(l, d, g, Interrupt(None, true));
    RunsAfter(l, EventFor(ID, d, Interrupt(None, true)));
    e, h := BeginAgain(after, Stepped(d, Interrupt(None, true)), g);
  }

  /** The provider cannot be reached: the occurrence is skipped, claimed again when its time has come, and begun. */
  method SkipAndBegin(store: Store, ghost d: Delivery, ghost g: Goal) returns (ghost e: Delivery, ghost h: Goal)
    requires store.Valid() && store.sidecars == map[] && Here(store.log, d, g) && g.wakeAt == Some(0)
    requires d.status.Running? && !d.terminal && d.runner == Some(store.runner) && d.attempt == 1
    modifies store`log
    ensures store.Valid() && At(store.log, e, h) && h.wakeAt == Some(0)
    ensures e.status.Running? && !e.terminal && e.runner == Some(store.runner) && e.attempt == 1
    ensures RunsOf(store.log, ID) == RunsOf(old(store.log), ID) + 1
  {
    hide Legal, Possible, RunsOf;
    ghost var l := store.log;
    var r := store.Skip(ID, 1, 1);
    ghost var s := GoalLog.Skip(1 + SECOND);
    assert store.log == l + [EventFor(ID, d, s)];
    AtStep(l, d, g, s);
    RunsAfter(l, EventFor(ID, d, s));
    e, l := Stepped(d, s), store.log;
    e, h := ClaimAndBegin(store, e, g);
  }

  method ClaimAndBegin(store: Store, ghost d: Delivery, ghost g: Goal) returns (ghost e: Delivery, ghost h: Goal)
    requires store.Valid() && store.sidecars == map[] && Here(store.log, d, g) && g.wakeAt == Some(0)
    requires d.status.Skipped? && !d.terminal && !d.consumeRetry && d.attempt == 1 && d.retryAt == Some(1 + SECOND)
    modifies store`log
    ensures store.Valid() && At(store.log, e, h) && h.wakeAt == Some(0)
    ensures e.status.Running? && !e.terminal && e.runner == Some(store.runner) && e.attempt == 1
    ensures RunsOf(store.log, ID) == RunsOf(old(store.log), ID) + 1
  {
    hide Legal, Possible, RunsOf;
    ghost var l := store.log;
    var now := 1 + SECOND;
    ghost var s := Claim(Deadline(now, Phase.Wake), store.runner, 1);
    var r := store.Wake(0, OWNER, now, 0);
    assert store.log == l + [EventFor(ID, d, s)];
    AtStep(l, d, g, s);
    RunsAfter(l, EventFor(ID, d, s));
    e, h := BeginAgain(store, Stepped(d, s), g);
  }

  /** The run fails and may be retried; it is begun again without being claimed. */
  method FailAndBegin(store: Store, ghost d: Delivery, ghost g: Goal) returns (ghost e: Delivery, ghost h: Goal)
    requires store.Valid() && store.sidecars == map[] && Here(store.log, d, g) && g.wakeAt == Some(0)
    requires d.status.Running? && !d.terminal && d.runner == Some(store.runner) && d.attempt == 1
    modifies store`log
    ensures store.Valid() && At(store.log, e, h) && h.wakeAt == Some(0)
    ensures e.status.Running? && !e.terminal && e.runner == Some(store.runner) && e.attempt == 1
    ensures RunsOf(store.log, ID) == RunsOf(old(store.log), ID) + 1
  {
    hide Legal, Possible, RunsOf;
    ghost var l := store.log;
    ghost var s := Failing(d, g, true, 1, NO_USAGE);
    var r := store.FailDelivery(ID, true, 1, NO_USAGE);
    assert store.log == l + [EventFor(ID, d, s)];
    AtStep(l, d, g, s);
    RunsAfter(l, EventFor(ID, d, s));
    e, h := BeginAgain(store, Stepped(d, s), g);
  }

  /** Whatever the ways back to running and however many there are, they are all runs of the first attempt. */
  method BegunWithoutEnd(routes: seq<Route>) returns (store: Store)
    ensures store.Valid() && RunsOf(store.log, ID) == |routes| + 1
    ensures store.D(ID).Some? && store.D(ID).value.status.Running? && store.D(ID).value.attempt == 1
  {
    hide Legal, Possible, RunsOf, Here, At;
    ghost var d, g;
    store, d, g := Begun(0);
    BegunHere(store.log, d, g);
    for i := 0 to |routes|
      invariant fresh(store) && store.Valid() && store.sidecars == map[]
      invariant Here(store.log, d, g) && g.wakeAt == Some(0)
      invariant d.status.Running? && !d.terminal && d.runner == Some(store.runner) && d.attempt == 1
      invariant RunsOf(store.log, ID) == i + 1
    {
      match routes[i] {
        case HostDies => store, d, g := DieAndBegin(store, d, g);
        case Skipped => d, g := SkipAndBegin(store, d, g);
        case Failed => d, g := FailAndBegin(store, d, g);
      }
      BegunHere(store.log, d, g);
    }
    HereIs(store.log, d, g);
  }

  lemma BegunHere(log: Log, d: Delivery, g: Goal)
    requires At(log, d, g)
    ensures Here(log, d, g)
  {
  }

  lemma HereIs(log: Log, d: Delivery, g: Goal)
    requires Here(log, d, g)
    ensures DeliveryOf(log, ID) == Some(d)
  {
  }

  // Usage.

  ghost predicate Ready(log: Log, g: Goal, at: Time) {
    GoalOf(log, 0) == Some(g) && g.status.Active? && g.owner == OWNER && g.every == 60 && g.wakeAt == Some(at)
  }

  /** What a list of events about one delivery does. */
  lemma RoundStep(log: Log, id: DeliveryId, d: Delivery, g: Goal, s: Step)
    requires DeliveryOf(log, id) == Some(d) && GoalOf(log, 0) == Some(g) && id.goal == 0 && !s.Add?
    ensures var after := log + [EventFor(id, d, s)];
            && DeliveryOf(after, id) == Some(Stepped(d, s)) && GoalOf(after, 0) == Some(Touched(g, s))
            && (forall x | x != id :: DeliveryOf(after, x) == DeliveryOf(log, x))
            && IdsOf(after, 0) == IdsOf(log, 0)
  {
    hide Applied, Touched;
    StepEffect(log, id, s);
    AdvanceStep(log, EventFor(id, d, s), id, 0);
  }

  /** A new occurrence is woken. */
  method WakeAt(store: Store, at: Time, ghost g: Goal) returns (id: DeliveryId, ghost d: Delivery)
    requires store.Valid() && Ready(store.log, g, at) && DeliveryOf(store.log, DeliveryId(0, at)).None?
    modifies store`log
    ensures store.Valid() && id == DeliveryId(0, at) && Ready(store.log, g, at)
    ensures DeliveryOf(store.log, id) == Some(d) && d.status.Claimed? && !d.terminal && !Already(d) && d.usage == NO_USAGE
    ensures IdsOf(store.log, 0) == IdsOf(old(store.log), 0) + [id]
    ensures forall x | x != id :: DeliveryOf(store.log, x) == DeliveryOf(old(store.log), x)
  {
    hide Legal, Possible, DeliveryOf, GoalOf, IdsOf;
    id := DeliveryId(0, at);
    ghost var l, runner, deadline := store.log, store.runner, Deadline(at, Phase.Wake);
    var r := store.Wake(0, OWNER, at, 0);
    ghost var add := OfDelivery(id, 1, Add(deadline, runner, OWNER));
    d := Added(1, deadline, runner, OWNER);
    assert store.log == (l + [add]) + [EventFor(id, d, Claim(deadline, runner, 1))];
    Appended(l, add);
    AdvanceStep(l, add, id, 0);
    assert GoalStep(Some(g), 0, add) == Some(g);
    RoundStep(l + [add], id, d, g, Claim(deadline, runner, 1));
    d := Stepped(d, Claim(deadline, runner, 1));
  }

  /** An occurrence is woken, begun and completed at once with one receipt. */
  method Round(store: Store, at: Time, ghost g: Goal, k: Counter, v: nat) returns (id: DeliveryId, ghost h: Goal)
    requires store.Valid() && Ready(store.log, g, at) && DeliveryOf(store.log, DeliveryId(0, at)).None?
    requires DeliveryId(0, at) !in store.sidecars && v <= CLAMP
    modifies store
    ensures store.Valid() && id == DeliveryId(0, at) && Ready(store.log, h, at + HOUR)
    ensures h.usage == Merged(g.usage, Single(k, v))
    ensures DeliveryOf(store.log, id).Some? && DeliveryOf(store.log, id).value.usage == Single(k, v)
    ensures store.sidecars.Keys == old(store.sidecars.Keys) + {id}
    ensures IdsOf(store.log, 0) == IdsOf(old(store.log), 0) + [id]
    ensures forall x | x != id :: DeliveryOf(store.log, x) == DeliveryOf(old(store.log), x)
  {
    hide Legal, Possible, DeliveryOf, GoalOf, IdsOf, UsageTotals.Merged;
    ghost var d;
    id, d := WakeAt(store, at, g);
    ghost var l := store.log;
    var r := store.BeginDelivery(id, None);
    RoundStep(l, id, d, g, GoalLog.Begin(store.runner));
    d, l := Stepped(d, GoalLog.Begin(store.runner)), store.log;
    FirstMerge(k, v);
    r := store.CompleteDelivery(id, Single(k, v), None, at);
    ghost var s := Completion(d, g, at, Single(k, v));
    assert store.log == l + [EventFor(id, d, s)];
    RoundStep(l, id, d, g, s);
    h := Touched(g, s);
  }

  ghost predicate Used(log: Log, id: DeliveryId, k: Counter, v: nat) {
    DeliveryOf(log, id).Some? && DeliveryOf(log, id).value.usage == Single(k, v)
  }

  method ThreeRounds(k: Counter) returns (store: Store, ghost g: Goal)
    ensures store.Valid() && GoalOf(store.log, 0) == Some(g)
    ensures g.usage == Merged(Merged(Merged(NO_USAGE, Single(k, CLAMP)), Single(k, CLAMP)), Single(k, 1))
    ensures IdsOf(store.log, 0) == [DeliveryId(0, 0)] + [DeliveryId(0, HOUR)] + [DeliveryId(0, HOUR + HOUR)]
    ensures Used(store.log, DeliveryId(0, 0), k, CLAMP) && Used(store.log, DeliveryId(0, HOUR), k, CLAMP)
    ensures Used(store.log, DeliveryId(0, HOUR + HOUR), k, 1)
  {
    hide Legal, Possible, DeliveryOf, GoalOf, IdsOf, UsageTotals.Merged, Single;
    store, g := Created(1);
    var id;
    id, g := Round(store, 0, g, k, CLAMP);
    id, g := Round(store, HOUR, g, k, CLAMP);
    id, g := Round(store, HOUR + HOUR, g, k, 1);
    assert [] + [DeliveryId(0, 0)] == [DeliveryId(0, 0)];
  }

  /** Three occurrences report the clamp, the clamp and one: the goal forgets what the occurrences remember. */
  method GoalForgetsUsage(k: Counter) returns (store: Store)
    requires !Peak(k)
    ensures store.Valid() && store.G(0).Some? && Value(store.G(0).value.usage, k) == CLAMP + 1
    ensures forall id | id in IdsOf(store.log, 0) :: DeliveryOf(store.log, id).Some?
    ensures Gathered(false, TotalShares(store.log, IdsOf(store.log, 0), k)) == 2 * CLAMP + 1
  {
    hide Legal, DeliveryOf, GoalOf, IdsOf, UsageTotals.Merged;
    ghost var g;
    store, g := ThreeRounds(k);
    FirstMerge(k, CLAMP);
    MergeSingles(k, CLAMP, CLAMP);
    MergeSingles(k, 2 * CLAMP, 1);
    assert TotalShares(store.log, IdsOf(store.log, 0), k) == [CLAMP, CLAMP, 1];
    ThreeGathered(CLAMP, CLAMP, 1);
  }

  lemma ThreeGathered(a: int, b: int, c: int)
    ensures Gathered(false, [a, b, c]) == a + b + c
  {
    GatheredAdd(false, [], a);
    GatheredAdd(false, [a], b);
    GatheredAdd(false, [a, b], c);
    assert [] + [a] == [a] && [a] + [b] == [a, b] && [a, b] + [c] == [a, b, c];
  }
}
