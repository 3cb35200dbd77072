/** Counting restore attempts against one recovery, with refunds.

    An attempt made for a recovery first saves the current state and counts
    itself; a failure proven to have changed nothing takes that count back.  All
    counters live in the ledger and survive entries that do not mention them. */
module RestoreAttempts {
  import opened FileSystem
  import opened RecoveryLedger

  const RESTORE_ATTEMPT_LIMIT: nat := 3

  /** Everything one attempt meets: how it was asked for and what then happens. */
  datatype Attempt = Attempt(
    automatic: bool,         // launched by the host for the incident
    byRecovery: bool,        // the caller named the recovery
    prepared: bool,          // the editor could be prepared
    backup: Option<string>,  // the safety checkpoint, if it could be made
    crashed: bool,           // the host died before the outcome was recorded
    restored: bool,          // the restore went through
    counted: bool)           // a failure could not be proven to be without effect

  datatype Result = NoRecovery | AutoBlocked | LimitReached | Failed | Crashed | Success

  function OrZero(n: Option<nat>): nat {
    if n.Some? then n.value else 0
  }

  function AtMost(n: nat, limit: nat): nat {
    if n <= limit then n else limit
  }

  function LimitOf(e: Entry): nat {
    var limit := if e.attemptLimit.Some? && e.attemptLimit.value > 0 then e.attemptLimit.value else RESTORE_ATTEMPT_LIMIT;
    AtMost(limit, RESTORE_ATTEMPT_LIMIT)
  }

  predicate SafetyBacked(a: Attempt) {
    a.automatic || a.byRecovery
  }

  /** What has happened to one recovery, told apart from what the ledger recorded about it. */
  datatype Tally = Tally(
    countedFailures: nat,    // failures counted in attempts that passed the limit check
    unlimitedFailures: nat,  // failures counted in attempts that were never checked against the limit
    successes: nat,          // safety-backed restores that went through
    crashes: nat,            // safety-backed attempts cut short
    streak: nat)             // zero-effect failures since the last counted failure or success

  const NO_TALLY := Tally(0, 0, 0, 0, 0)

  /** What safety-backed attempts counted. */
  function BackedCount(t: Tally): nat {
    t.countedFailures + t.successes + t.crashes
  }

  /** What one attempt with outcome `r` adds. */
  function Tallied(t: Tally, a: Attempt, r: Result): Tally {
    match r
    case Failed =>
      if !a.counted then t.(streak := t.streak + 1)
      else if SafetyBacked(a) then t.(countedFailures := t.countedFailures + 1, streak := 0)
      else t.(unlimitedFailures := t.unlimitedFailures + 1, streak := 0)
    case Crashed => t.(crashes := t.crashes + 1)
    case Success => t.(successes := t.successes + if SafetyBacked(a) then 1 else 0, streak := 0)
    case _ => t
  }

  /** The tally of a whole history of attempts. */
  function TallyOf(attempts: seq<Attempt>, results: seq<Result>): Tally
    requires |attempts| == |results|
  {
    if attempts == [] then NO_TALLY
    else
      var n := |attempts| - 1;
      Tallied(TallyOf(attempts[..n], results[..n]), attempts[n], results[n])
  }

  /** How often a history counted against the recovery: counted failures, successes and crashes. */
  function Counted(attempts: seq<Attempt>, results: seq<Result>): nat
    requires |attempts| == |results|
  {
    if attempts == [] then 0
    else
      var n := |attempts| - 1;
      Counted(attempts[..n], results[..n]) + CountedOnce(attempts[n], results[n])
  }

  /** No attempt of the history was without a safety checkpoint. */
  ghost predicate AllBacked(attempts: seq<Attempt>) {
    forall a | a in attempts :: SafetyBacked(a)
  }

  lemma {:induction false} TallyCounts(attempts: seq<Attempt>, results: seq<Result>)
    requires |attempts| == |results|
    ensures var t := TallyOf(attempts, results);
            && Counted(attempts, results) == BackedCount(t) + t.unlimitedFailures
            && (AllBacked(attempts) ==> t.unlimitedFailures == 0)
  {
    hide Tallied, BackedCount, CountedOnce, SafetyBacked;
    if attempts == [] {
      NothingCounted();
    } else {
      var n := |attempts| - 1;
      TallyCounts(attempts[..n], results[..n]);
      assert AllBacked(attempts) ==> AllBacked(attempts[..n]) && SafetyBacked(attempts[n]);
      TalliedCounts(TallyOf(attempts[..n], results[..n]), attempts[n], results[n]);
    }
  }

  lemma NothingCounted()
    ensures BackedCount(NO_TALLY) == 0
  {
  }

  function CountedOnce(a: Attempt, r: Result): nat {
    if r.Crashed? || (r.Success? && SafetyBacked(a)) || (r.Failed? && a.counted) then 1 else 0
  }

  lemma TalliedCounts(t: Tally, a: Attempt, r: Result)
    ensures var u := Tallied(t, a, r);
            && BackedCount(u) + u.unlimitedFailures == BackedCount(t) + t.unlimitedFailures + CountedOnce(a, r)
            && (SafetyBacked(a) ==> u.unlimitedFailures == t.unlimitedFailures)
  {
  }

  lemma TallyLast(attempts: seq<Attempt>, results: seq<Result>, r: Result)
    requires |attempts| == |results| + 1
    ensures TallyOf(attempts, results + [r]) == Tallied(TallyOf(attempts[..|results|], results), attempts[|results|], r)
  {
    assert (results + [r])[..|results|] == results;
  }

  /** The counters of the merged entry say exactly what happened. */
  ghost predicate Accounts(e: Entry, t: Tally) {
    && OrZero(e.attemptCount) == BackedCount(t) + t.unlimitedFailures
    && BackedCount(t) <= LimitOf(e)
    && OrZero(e.zeroStreak) == AtMost(t.streak, RESTORE_ATTEMPT_LIMIT)
    && (e.autoBlocked == Some(true) <==> t.streak >= RESTORE_ATTEMPT_LIMIT)
  }

  /** What an attempt comes to, from what came before: `open` says whether the recovery still is. */
  function Outcome(t: Tally, open: bool, limit: nat, a: Attempt): Result {
    if !open then NoRecovery
    else if a.automatic && t.streak >= RESTORE_ATTEMPT_LIMIT then AutoBlocked
    else if !SafetyBacked(a) then (if a.restored then Success else Failed)
    else if BackedCount(t) + t.unlimitedFailures >= limit then LimitReached
    else if !a.prepared || a.backup.None? then Failed
    else if a.crashed then Crashed
    else if a.restored then Success else Failed
  }

  class Restorer {
    const id: string
    const checkpointId: string
    var ledger: Ledger
    ghost var tally: Tally

    ghost predicate Valid()
      reads this
    {
      id != "" && Accounts(StateOf(ledger, id), tally)
    }

    /** Takes over a ledger in which the recovery has just been opened. */
    constructor (id: string, checkpointId: string, ledger: Ledger)
      requires id != ""
      requires OrZero(StateOf(ledger, id).attemptCount) == 0 && OrZero(StateOf(ledger, id).zeroStreak) == 0
      requires StateOf(ledger, id).autoBlocked != Some(true)
      ensures Valid() && this.id == id && this.ledger == ledger && tally == NO_TALLY
    {
      this.id, this.checkpointId, this.ledger := id, checkpointId, ledger;
      tally := NO_TALLY;
    }

    function Merged(): Entry
      reads this
    {
      StateOf(ledger, id)
    }

    method Append(entry: Entry)
      modifies this`ledger
      ensures ledger == old(ledger) + [Line(id, entry)] && Merged() == Merge(old(Merged()), entry)
    {
      StateOfAppend(ledger, Line(id, entry), id);
      ledger := ledger + [Line(id, entry)];
    }

    /** Counts the attempt and keeps its safety checkpoint, before anything is restored. */
    method PrepareAttempt(backup: string)
      requires OrZero(Merged().attemptCount) < LimitOf(Merged())
      modifies this`ledger
      ensures exists entry :: ledger == old(ledger) + [Line(id, entry)]
      ensures Merged() == old(Merged()).(
                status := Some(NeedsRecovery), attemptCount := Some(OrZero(old(Merged()).attemptCount) + 1),
                attemptLimit := Some(LimitOf(old(Merged()))), safetyId := Some(backup), safetyIds := Merged().safetyIds)
      ensures Merged().safetyIds.Some? && backup in Merged().safetyIds.value
      ensures old(Merged()).safetyIds.Some? ==> old(Merged()).safetyIds.value <= Merged().safetyIds.value
    {
      var e := Merged();
      var earlier := if e.safetyIds.Some? then e.safetyIds.value else [];
      Append(NOTHING.(status := Some(NeedsRecovery), key := e.key, checkpointId := e.checkpointId,
                      attemptCount := Some(OrZero(e.attemptCount) + 1), attemptLimit := Some(LimitOf(e)),
                      safetyId := Some(backup), safetyIds := Some(earlier + [backup])));
    }

    /** Records a failed attempt; `tentative` says that it has already been counted. */
    method RecordFailure(counted: bool, tentative: bool)
      modifies this`ledger
      ensures old(ledger) <= ledger
      ensures Merged() == old(Merged()).(
                attemptCount := Merged().attemptCount, zeroStreak := Merged().zeroStreak, autoBlocked := Merged().autoBlocked)
      ensures var before, after := OrZero(old(Merged()).attemptCount), OrZero(Merged().attemptCount);
              if counted == tentative then after == before
              else if counted then after == before + 1
              else after == if before > 0 then before - 1 else 0
      ensures OrZero(Merged().zeroStreak) ==
                if counted then 0
                else AtMost(AtMost(OrZero(old(Merged()).zeroStreak), RESTORE_ATTEMPT_LIMIT) + 1, RESTORE_ATTEMPT_LIMIT)
      ensures Merged().autoBlocked == Some(OrZero(Merged().zeroStreak) >= RESTORE_ATTEMPT_LIMIT)
    {
      var latest := Merged();
      var count := OrZero(latest.attemptCount);
      var zero := AtMost(OrZero(latest.zeroStreak), RESTORE_ATTEMPT_LIMIT);
      if counted {
        if !tentative {
          count := count + 1;
        }
        zero := 0;
      } else {
        if tentative {
          count := if count > 0 then count - 1 else 0;
        }
        zero := AtMost(zero + 1, RESTORE_ATTEMPT_LIMIT);
      }
      Append(latest.(attemptCount := Some(count), zeroStreak := Some(zero),
                     autoBlocked := Some(zero >= RESTORE_ATTEMPT_LIMIT)));
    }

    method RecordSuccess()
      modifies this`ledger
      ensures old(ledger) <= ledger
      ensures Merged() == old(Merged()).(
                successCount := Some(AtMost(AtMost(OrZero(old(Merged()).successCount), RESTORE_ATTEMPT_LIMIT) + 1, RESTORE_ATTEMPT_LIMIT)),
                zeroStreak := Some(0), autoBlocked := Some(false))
    {
      var latest := Merged();
      Append(latest.(
        successCount := Some(AtMost(AtMost(OrZero(latest.successCount), RESTORE_ATTEMPT_LIMIT) + 1, RESTORE_ATTEMPT_LIMIT)),
        zeroStreak := Some(0), autoBlocked := Some(false)));
    }

    /** One restore against the recovery. */
    method Restore(a: Attempt) returns (r: Result)
      requires Valid()
      modifies this
      ensures Valid()
      ensures old(ledger) <= ledger
      // who gets as far as restoring
      ensures r.NoRecovery? <==> !Active(old(ledger), id)
      ensures r.AutoBlocked? <==> Active(old(ledger), id) && a.automatic && old(tally).streak >= RESTORE_ATTEMPT_LIMIT
      ensures r.LimitReached? <==>
                && Active(old(ledger), id) && SafetyBacked(a)
                && !(a.automatic && old(tally).streak >= RESTORE_ATTEMPT_LIMIT)
                && OrZero(old(Merged()).attemptCount) >= LimitOf(old(Merged()))
      ensures r.NoRecovery? || r.AutoBlocked? || r.LimitReached? ==> ledger == old(ledger)
      // what comes of it, and what that adds to the tally
      ensures r == Outcome(old(tally), Active(old(ledger), id), LimitOf(old(Merged())), a)
      ensures Active(ledger, id) <==> Active(old(ledger), id) && !r.Success?
      ensures tally == Tallied(old(tally), a, r)
      ensures r.Success? ==> a.restored
      ensures r.Crashed? ==> a.crashed && SafetyBacked(a)
      // a failure proven to be without effect costs nothing
      ensures r.Failed? && !a.counted ==> OrZero(Merged().attemptCount) == OrZero(old(Merged()).attemptCount)
      // a failure or a crash leaves the recovery open, a restore that went through settles it
      ensures r.Failed? || r.Crashed? ==> Active(ledger, id)
      ensures LimitOf(Merged()) == LimitOf(old(Merged()))
      ensures r.Success? ==> !Active(ledger, id)
    {
      var e := Merged();
      if !Active(ledger, id) {
        return NoRecovery;
      }
      if a.automatic && e.autoBlocked == Some(true) {
        return AutoBlocked;
      }
      if !SafetyBacked(a) {
        r := RestoreUnbacked(a);
        return;
      }
      if OrZero(e.attemptCount) >= LimitOf(e) {
        return LimitReached;
      }
      if !a.prepared || a.backup.None? {
        RecordFailure(a.counted, false);
        tally := Tallied(tally, a, Failed);
        return Failed;
      }
      r := RestoreBacked(a);
    }

    method RestoreUnbacked(a: Attempt) returns (r: Result)
      requires Valid() && !SafetyBacked(a) && Active(ledger, id)
      modifies this
      ensures Valid() && old(ledger) <= ledger && (r.Failed? || r.Success?)
      ensures tally == Tallied(old(tally), a, r)
      ensures r.Success? <==> a.restored
      ensures r.Failed? && !a.counted ==> OrZero(Merged().attemptCount) == OrZero(old(Merged()).attemptCount)
      ensures r.Failed? ==> Active(ledger, id)
      ensures r.Success? ==> !Active(ledger, id)
      ensures LimitOf(Merged()) == LimitOf(old(Merged()))
    {
      if a.restored {
        Append(NOTHING.(status := Some(Restored)));
        RecordSuccess();
        tally := Tallied(tally, a, Success);
        return Success;
      }
      RecordFailure(a.counted, false);
      r := Failed;
      tally := Tallied(tally, a, r);
    }

    method RestoreBacked(a: Attempt) returns (r: Result)
      requires Valid() && SafetyBacked(a) && a.backup.Some? && Active(ledger, id)
      requires OrZero(Merged().attemptCount) < LimitOf(Merged())
      modifies this
      ensures Valid() && old(ledger) <= ledger && (r.Failed? || r.Success? || r.Crashed?)
      ensures r.Crashed? <==> a.crashed
      ensures tally == Tallied(old(tally), a, r)
      ensures r.Success? <==> a.restored && !a.crashed
      ensures r.Failed? && !a.counted ==> OrZero(Merged().attemptCount) == OrZero(old(Merged()).attemptCount)
      ensures r.Failed? || r.Crashed? ==> Active(ledger, id)
      ensures r.Success? ==> !Active(ledger, id)
      ensures LimitOf(Merged()) == LimitOf(old(Merged()))
    {
      PrepareAttempt(a.backup.value);
      if a.crashed {
        tally := Tallied(tally, a, Crashed);
        return Crashed;
      }
      if a.restored {
        Append(NOTHING.(status := Some(Restored)));
        RecordSuccess();
        tally := Tallied(tally, a, Success);
        return Success;
      }
      RecordFailure(a.counted, true);
      r := Failed;
      tally := Tallied(tally, a, r);
    }

    /** One attempt of a longer run, of which only the tally matters. */
    method RestoreNext(a: Attempt) returns (r: Result)
      requires Valid()
      modifies this
      ensures Valid() && tally == Tallied(old(tally), a, r)
      ensures r == Outcome(old(tally), Active(old(ledger), id), LimitOf(old(Merged())), a)
      ensures Active(ledger, id) <==> Active(old(ledger), id) && !r.Success?
      ensures LimitOf(Merged()) == LimitOf(old(Merged()))
    {
      r := Restore(a);
    }

    /** Any run of attempts: the stored count is what the run counted.  What safety-backed attempts add to it
        stays within the limit, so the count passes the limit exactly when the failures that were never
        checked against it fill what the others leave.  Each attempt comes to what the ones before it let it. */
    method RestoreAll(attempts: seq<Attempt>) returns (results: seq<Result>)
      requires Valid() && tally == NO_TALLY
      modifies this
      ensures Valid() && |results| == |attempts| && tally == TallyOf(attempts, results)
      ensures OrZero(Merged().attemptCount) == Counted(attempts, results)
      ensures BackedCount(tally) <= LimitOf(Merged())
      ensures OrZero(Merged().attemptCount) > LimitOf(Merged()) <==> tally.unlimitedFailures > LimitOf(Merged()) - BackedCount(tally)
      ensures AllBacked(attempts) ==> OrZero(Merged().attemptCount) <= LimitOf(Merged())
      ensures Outcomes(attempts, results, Active(old(ledger), id), LimitOf(old(Merged())))
    {
      hide StateOf, Tallied, TallyOf, Counted, Accounts, BackedCount, Outcome, LimitOf;
      results := RestoreEach(attempts);
      RunAccounts(Merged(), attempts, results);
    }

    method RestoreEach(attempts: seq<Attempt>) returns (results: seq<Result>)
      requires Valid() && tally == NO_TALLY
      modifies this
      ensures Valid() && |results| == |attempts| && tally == TallyOf(attempts, results)
      ensures Outcomes(attempts, results, Active(old(ledger), id), LimitOf(old(Merged())))
      ensures Active(ledger, id) <==> Active(old(ledger), id) && Success !in results
      ensures LimitOf(Merged()) == LimitOf(old(Merged()))
      decreases |attempts|
    {
      hide StateOf, Tallied, Accounts, Outcome, LimitOf, TallyOf;
      results := [];
      NoOutcomes(Active(ledger, id), LimitOf(Merged()));
      if attempts != [] {
        var n := |attempts| - 1;
        results := RestoreEach(attempts[..n]);
        var r := RestoreNext(attempts[n]);
        TallyLast(attempts, results, r);
        OutcomesNext(attempts, results, r, Active(old(ledger), id), LimitOf(old(Merged())));
        results := results + [r];
      }
    }
  }

  /** Each attempt came to what those before it let it. */
  ghost predicate Outcomes(attempts: seq<Attempt>, results: seq<Result>, open: bool, limit: nat) {
    |attempts| == |results|
    && forall i | 0 <= i < |results| ::
         results[i] == Outcome(TallyOf(attempts[..i], results[..i]), open && Success !in results[..i], limit, attempts[i])
  }

  lemma NoOutcomes(open: bool, limit: nat)
    ensures Outcomes([], [], open, limit) && TallyOf([], []) == NO_TALLY
  {
  }

  lemma OutcomesNext(attempts: seq<Attempt>, results: seq<Result>, r: Result, open: bool, limit: nat)
    requires |attempts| == |results| + 1 && Outcomes(attempts[..|results|], results, open, limit)
    requires r == Outcome(TallyOf(attempts[..|results|], results), open && Success !in results, limit, attempts[|results|])
    ensures Outcomes(attempts, results + [r], open, limit)
  {
    hide Outcome, TallyOf;
    var n, more := |results|, results + [r];
    forall i | 0 <= i < |more|
      ensures more[i] == Outcome(TallyOf(attempts[..i], more[..i]), open && Success !in more[..i], limit, attempts[i])
    {
      assert more[..i] == results[..i] && attempts[..n][..i] == attempts[..i];
      assert results[..n] == results;
    }
  }

  lemma RunAccounts(e: Entry, attempts: seq<Attempt>, results: seq<Result>)
    requires |results| == |attempts| && Accounts(e, TallyOf(attempts, results))
    ensures OrZero(e.attemptCount) == Counted(attempts, results)
    ensures BackedCount(TallyOf(attempts, results)) <= LimitOf(e)
    ensures OrZero(e.attemptCount) > LimitOf(e)
            <==> TallyOf(attempts, results).unlimitedFailures > LimitOf(e) - BackedCount(TallyOf(attempts, results))
    ensures AllBacked(attempts) ==> OrZero(e.attemptCount) <= LimitOf(e)
  {
    TallyCounts(attempts, results);
  }

  /** A restore by checkpoint alone that fails and is counted. */
  method FailUnbacked(restorer: Restorer, before: nat)
    requires restorer.Valid() && Active(restorer.ledger, restorer.id)
    requires restorer.tally == NO_TALLY.(unlimitedFailures := before)
    modifies restorer
    ensures restorer.Valid() && Active(restorer.ledger, restorer.id)
    ensures restorer.tally == NO_TALLY.(unlimitedFailures := before + 1)
    ensures LimitOf(restorer.Merged()) == LimitOf(old(restorer.Merged()))
  {
    hide StateOf, LimitOf, Accounts;
    var r := restorer.Restore(Attempt(false, false, true, None, false, false, true));
  }

  /** A recovery that has just been opened. */
  method JustOpened(id: string, checkpoint: string) returns (restorer: Restorer)
    requires id != ""
    ensures fresh(restorer) && restorer.Valid() && restorer.tally == NO_TALLY
    ensures Active(restorer.ledger, restorer.id) && LimitOf(restorer.Merged()) == 3
  {
    var opening := Line(id, NOTHING.(status := Some(Applying), checkpointId := Some(checkpoint)));
    StateOfAppend([], opening, id);
    restorer := new Restorer(id, checkpoint, [] + [opening]);
  }

  /** Attempts made by checkpoint alone are never checked against the limit: any number of counted
      failures takes the stored count of a fresh recovery as far. */
  method UnbackedFailuresPassTheLimit(id: string, checkpoint: string, n: nat) returns (count: nat, limit: nat)
    requires id != ""
    ensures count == n && limit == 3
  {
    var restorer := FailTimes(id, checkpoint, n);
    count, limit := OrZero(restorer.Merged().attemptCount), LimitOf(restorer.Merged());
  }

  method FailTimes(id: string, checkpoint: string, n: nat) returns (restorer: Restorer)
    requires id != ""
    ensures fresh(restorer) && restorer.Valid() && Active(restorer.ledger, restorer.id)
    ensures restorer.tally == NO_TALLY.(unlimitedFailures := n) && LimitOf(restorer.Merged()) == 3
  {
    hide StateOf, LimitOf, Accounts;
    restorer := JustOpened(id, checkpoint);
    for i := 0 to n
      invariant fresh(restorer) && restorer.Valid() && Active(restorer.ledger, restorer.id)
      invariant restorer.tally == NO_TALLY.(unlimitedFailures := i) && LimitOf(restorer.Merged()) == 3
    {
      FailUnbacked(restorer, i);
    }
  }
}
