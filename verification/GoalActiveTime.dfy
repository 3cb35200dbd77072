/** How the stored active seconds of a goal relate to the time it was really active. */
module GoalActiveTime {
  import opened FileSystem
  import opened GoalLog

  predicate ActiveIn(log: Log, goal: nat) {
    GoalOf(log, goal).Some? && GoalOf(log, goal).value.status.Active?
  }

  function ClockOf(e: Event): Time {
    if e.OfGoal? && (e.change.Create? || e.change.Update? || e.change.TryBlock?) then e.change.at else 0
  }

  /** When the current active interval began. */
  function Since(log: Log, goal: nat): Option<Time> {
    if log == [] || !ActiveIn(log, goal) then None
    else if ActiveIn(log[..|log| - 1], goal) then Since(log[..|log| - 1], goal)
    else Some(ClockOf(log[|log| - 1]))
  }

  predicate Leaves(log: Log, goal: nat) {
    log != [] && ActiveIn(log[..|log| - 1], goal) && !ActiveIn(log, goal)
  }

  /** How often the goal has stopped being active. */
  function Departures(log: Log, goal: nat): nat {
    if log == [] then 0 else Departures(log[..|log| - 1], goal) + if Leaves(log, goal) then 1 else 0
  }

  function Positive(x: int): nat {
    if x > 0 then x else 0
  }

  /** The length of all finished active intervals together. */
  function ActiveTime(log: Log, goal: nat): nat {
    if log == [] then 0
    else
      var before := log[..|log| - 1];
      ActiveTime(before, goal)
      + if Leaves(log, goal) && Since(before, goal).Some? then Positive(ClockOf(log[|log| - 1]) - Since(before, goal).value) else 0
  }

  lemma OnlyChangesActivate(g: Goal, s: Step)
    ensures Touched(g, s).status == g.status && Touched(g, s).lastActive == g.lastActive && Touched(g, s).elapsed == g.elapsed
  {
  }

  /** A goal has a time of last activation exactly while it is active, and it is the right one. */
  lemma {:induction false} LastActive(log: Log, goal: nat)
    requires Legal(log) && GoalOf(log, goal).Some?
    ensures GoalOf(log, goal).value.lastActive == Since(log, goal)
    ensures GoalOf(log, goal).value.lastActive.Some? <==> GoalOf(log, goal).value.status.Active?
  {
    var before, e := log[..|log| - 1], log[|log| - 1];
    if GoalOf(before, goal).Some? {
      LastActive(before, goal);
      if e.OfDelivery? {
        OnlyChangesActivate(GoalOf(before, goal).value, e.step);
      }
    }
  }

  lemma NoGoalNoTime(log: Log, goal: nat)
    requires Legal(log) && GoalOf(log, goal).None?
    ensures ActiveTime(log, goal) == 0 && Departures(log, goal) == 0
  {
    if log != [] {
      NoGoalNoTime(log[..|log| - 1], goal);
    }
  }

  /** Each time a goal stops being active less than a second of its active time is dropped. */
  lemma {:induction false} StoredSeconds(log: Log, goal: nat)
    requires Legal(log) && GoalOf(log, goal).Some?
    ensures var g, n, t := GoalOf(log, goal).value, Departures(log, goal), ActiveTime(log, goal);
            && g.elapsed * SECOND <= t
            && (if n == 0 then t == 0 && g.elapsed == 0 else t < (g.elapsed + n) * SECOND)
  {
    var before, e := log[..|log| - 1], log[|log| - 1];
    if GoalOf(before, goal).Some? {
      StoredSeconds(before, goal);
      LastActive(before, goal);
      if e.OfDelivery? {
        OnlyChangesActivate(GoalOf(before, goal).value, e.step);
      }
    } else {
      NoGoalNoTime(before, goal);
    }
  }
}
