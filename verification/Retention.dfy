/** Deleting checkpoint archives: automatic pruning to two limits, and user deletion.

    Both leave alone every checkpoint an active recovery refers to.  Pruning also
    keeps the newest archives, and gives recent ones a grace period that only the
    count limit overrides. */
module Retention {
  import opened FileSystem
  import opened RecoveryLedger
  import opened Collections

  datatype Archive = Archive(path: string, id: string, size: nat, modifiedAt: int)

  const BYTES_PER_MB: nat := 1024 * 1024
  const PROTECTED_RECENT_COUNT: nat := 2
  const GRACE_SECONDS: nat := 15 * 60

  function Total(s: seq<Archive>): nat {
    if s == [] then 0 else s[0].size + Total(s[1..])
  }

  function IdsOf(s: seq<Archive>): set<string> {
    set a | a in s :: a.id
  }

  /** The sort key: age for pruning, recency when the newest come first. */
  function Rank(a: Archive, newestFirst: bool): int {
    if newestFirst then -a.modifiedAt else a.modifiedAt
  }

  ghost predicate Ordered(s: seq<Archive>, newestFirst: bool) {
    forall i, j :: 0 <= i < j < |s| ==> Rank(s[i], newestFirst) <= Rank(s[j], newestFirst)
  }

  /** Inserts before archives of the same rank, so that sorting is stable. */
  function Insert(a: Archive, s: seq<Archive>, newestFirst: bool): seq<Archive> {
    if s == [] || Rank(a, newestFirst) <= Rank(s[0], newestFirst) then [a] + s
    else [s[0]] + Insert(a, s[1..], newestFirst)
  }

  lemma InsertSame(a: Archive, s: seq<Archive>, newestFirst: bool)
    ensures multiset(Insert(a, s, newestFirst)) == multiset(s) + multiset{a}
  {
    if s == [] || Rank(a, newestFirst) <= Rank(s[0], newestFirst) {
    } else {
      InsertSame(a, s[1..], newestFirst);
      assert s == [s[0]] + s[1..];
    }
  }

  lemma InsertOrdered(a: Archive, s: seq<Archive>, newestFirst: bool)
    requires Ordered(s, newestFirst)
    ensures Ordered(Insert(a, s, newestFirst), newestFirst)
  {
    if s == [] || Rank(a, newestFirst) <= Rank(s[0], newestFirst) {
    } else {
      InsertOrdered(a, s[1..], newestFirst);
      InsertSame(a, s[1..], newestFirst);
      var rest := Insert(a, s[1..], newestFirst);
      forall x | x in rest ensures Rank(s[0], newestFirst) <= Rank(x, newestFirst) {
        assert x in multiset(rest);
        assert x == a || x in s[1..];
      }
    }
  }

  function Sorted(s: seq<Archive>, newestFirst: bool): seq<Archive> {
    if s == [] then [] else Insert(s[0], Sorted(s[1..], newestFirst), newestFirst)
  }

  lemma SortedIsSorted(s: seq<Archive>, newestFirst: bool)
    ensures multiset(Sorted(s, newestFirst)) == multiset(s) && Ordered(Sorted(s, newestFirst), newestFirst)
    ensures |Sorted(s, newestFirst)| == |s|
  {
    if s != [] {
      SortedIsSorted(s[1..], newestFirst);
      InsertSame(s[0], Sorted(s[1..], newestFirst), newestFirst);
      InsertOrdered(s[0], Sorted(s[1..], newestFirst), newestFirst);
      assert s == [s[0]] + s[1..];
    }
    assert |multiset(Sorted(s, newestFirst))| == |multiset(s)|;
  }

  /** The `n` most recently modified archives. */
  function Newest(s: seq<Archive>, n: nat): (r: seq<Archive>)
    ensures |r| <= n
  {
    var sorted := Sorted(s, true);
    if |sorted| <= n then sorted else sorted[..n]
  }

  /** They are as many as there can be, and none of the others is newer than any of them. */
  lemma NewestAre(s: seq<Archive>, n: nat)
    ensures var r := Newest(s, n);
            && |r| == (if |s| <= n then |s| else n) && multiset(r) <= multiset(s)
            && forall a, b | a in multiset(s) - multiset(r) && b in r :: a.modifiedAt <= b.modifiedAt
  {
    hide Sorted;
    SortedIsSorted(s, true);
    FrontIsNewest(s, Sorted(s, true), n);
  }

  lemma FrontIsNewest(s: seq<Archive>, sorted: seq<Archive>, n: nat)
    requires multiset(sorted) == multiset(s) && |sorted| == |s| && Ordered(sorted, true)
    ensures var r := if |sorted| <= n then sorted else sorted[..n];
            && multiset(r) <= multiset(s)
            && forall a, b | a in multiset(s) - multiset(r) && b in r :: a.modifiedAt <= b.modifiedAt
  {
    if |s| > n {
      var r, others := sorted[..n], sorted[n..];
      assert sorted == r + others;
      assert multiset(s) - multiset(r) == multiset(others);
      forall a: Archive, b: Archive | a in multiset(others) && b in r ensures a.modifiedAt <= b.modifiedAt {
        NotNewer(sorted, n, a, b);
      }
    }
  }

  lemma NotNewer(sorted: seq<Archive>, n: nat, a: Archive, b: Archive)
    requires n <= |sorted| && Ordered(sorted, true) && a in sorted[n..] && b in sorted[..n]
    ensures a.modifiedAt <= b.modifiedAt
  {
    var i :| 0 <= i < |sorted| - n && sorted[n..][i] == a;
    var j :| 0 <= j < n && sorted[..n][j] == b;
    assert Rank(sorted[j], true) <= Rank(sorted[n + i], true);
  }

  function RecentCount(maxCount: nat): nat {
    if maxCount > 0 && maxCount < PROTECTED_RECENT_COUNT then maxCount else PROTECTED_RECENT_COUNT
  }

  /** What automatic deletion keeps: checkpoints of active recoveries, the newest archives and,
      while the grace period applies, all recent ones. */
  function Kept(log: Ledger, s: seq<Archive>, maxCount: nat, now: int, grace: bool): set<string> {
    Protected(log) + IdsOf(Newest(s, RecentCount(maxCount)))
    + if grace then (set a | a in s && a.modifiedAt >= now - GRACE_SECONDS :: a.id) else {}
  }

  /** The archive store; deleting one file may fail, which changes nothing and counts as a fault. */
  class Store {
    var archives: seq<Archive>
    ghost var faults: nat

    constructor (archives: seq<Archive>)
      ensures this.archives == archives && faults == 0
    {
      this.archives := archives;
      faults := 0;
    }

    method Unlink(a: Archive) returns (ok: bool)
      modifies this
      ensures archives == if ok then Without(old(archives), a) else old(archives)
      ensures faults == old(faults) + if ok then 0 else 1
    {
      ok := *;
      if ok {
        archives := Without(archives, a);
      } else {
        faults := faults + 1;
      }
    }
  }

  function Without(s: seq<Archive>, a: Archive): seq<Archive> {
    if s == [] then [] else if s[0] == a then s[1..] else [s[0]] + Without(s[1..], a)
  }

  lemma WithoutSame(s: seq<Archive>, a: Archive)
    ensures multiset(Without(s, a)) == multiset(s) - multiset{a}
  {
    if s != [] {
      assert s == [s[0]] + s[1..];
      if s[0] != a {
        WithoutSame(s[1..], a);
      }
    }
  }

  lemma TotalInsert(a: Archive, s: seq<Archive>, newestFirst: bool)
    ensures Total(Insert(a, s, newestFirst)) == a.size + Total(s)
  {
  }

  lemma TotalSorted(s: seq<Archive>, newestFirst: bool)
    ensures Total(Sorted(s, newestFirst)) == Total(s)
  {
    if s != [] {
      TotalSorted(s[1..], newestFirst);
      TotalInsert(s[0], Sorted(s[1..], newestFirst), newestFirst);
    }
  }

  predicate Over(limit: nat, amount: int) {
    limit > 0 && amount > limit
  }

  /** What one run did: the archives deleted, in order, those it failed to delete, and the totals left. */
  datatype Report = Report(deleted: seq<Archive>, failed: seq<Archive>, remainingBytes: int, remainingCount: int)

  /** The two limits of a run, what it keeps from either, and what it keeps from the size limit alone. */
  datatype Policy = Policy(maxMb: nat, maxCount: nat, keep: set<string>, graced: set<string>)
  {
    predicate OverCount(report: Report) {
      Over(maxCount, report.remainingCount)
    }

    predicate OverSize(report: Report) {
      Over(maxMb * BYTES_PER_MB, report.remainingBytes)
    }

    /** Deletion `k` was called for: before it a limit was not met, and only the count limit overrides grace. */
    predicate Needed(report: Report, k: nat)
      requires k < |report.deleted|
    {
      || Over(maxCount, report.remainingCount + |report.deleted| - k)
      || (Over(maxMb * BYTES_PER_MB, report.remainingBytes + Total(report.deleted[k..])) && report.deleted[k].id !in graced)
    }

    /** A run that has gone through `byAge[..i]`, deleting some and passing over `visited`. */
    ghost predicate Progress(byAge: seq<Archive>, i: nat, visited: seq<Archive>, report: Report)
      requires i <= |byAge|
    {
      && multiset(byAge) == multiset(visited) + multiset(byAge[i..]) + multiset(report.deleted)
      && report.remainingBytes == Total(visited + byAge[i..])
      && report.remainingCount == |visited| + |byAge| - i
      && (forall a | a in report.deleted :: a.id !in keep)
      && (forall a | a in visited :: a.id in graced || a in report.failed)
      && (OverCount(report) ==> forall a | a in visited :: a.id in keep || a in report.failed)
      && (forall k | 0 <= k < |report.deleted| :: Needed(report, k))
      && (forall d, k | d in report.deleted && i <= k < |byAge| :: d.modifiedAt <= byAge[k].modifiedAt)
    }

    /** What a finished run guarantees about what it deleted and what survives. */
    ghost predicate Met(report: Report, visited: seq<Archive>, rest: seq<Archive>) {
      // nothing protected goes, and nothing goes without need
      && (forall a | a in report.deleted :: a.id !in keep)
      && (forall k | 0 <= k < |report.deleted| :: Needed(report, k))
      // an unmet limit means that nothing more may go
      && (OverCount(report) ==> forall a | a in visited + rest :: a.id in keep || a in report.failed)
      && (OverSize(report) ==> forall a | a in visited + rest :: a.id in graced || a in report.failed)
      // the oldest go first
      && (forall a | a in visited :: a.id in graced || a in report.failed)
      && (forall a, d | a in rest && d in report.deleted :: d.modifiedAt <= a.modifiedAt)
    }
  }

  lemma PassOver(p: Policy, byAge: seq<Archive>, i: nat, visited: seq<Archive>, before: Report, after: Report)
    requires i < |byAge| && p.Progress(byAge, i, visited, before)
    requires after == before.(failed := after.failed) && before.failed <= after.failed
    requires byAge[i] in after.failed || byAge[i].id in p.keep || (!p.OverCount(before) && byAge[i].id in p.graced)
    requires p.keep <= p.graced
    ensures p.Progress(byAge, i + 1, visited + [byAge[i]], after)
  {
    assert byAge[i..] == [byAge[i]] + byAge[i + 1..];
    assert (visited + [byAge[i]]) + byAge[i + 1..] == visited + byAge[i..];
    forall k | 0 <= k < |after.deleted| ensures p.Needed(after, k) {
      assert p.Needed(before, k);
    }
  }

  lemma Drop(p: Policy, byAge: seq<Archive>, i: nat, visited: seq<Archive>, before: Report, after: Report)
    requires i < |byAge| && Ordered(byAge, false) && p.Progress(byAge, i, visited, before)
    requires p.OverCount(before) || (p.OverSize(before) && byAge[i].id !in p.graced)
    requires byAge[i].id !in p.keep
    requires after == Report(before.deleted + [byAge[i]], before.failed,
                             before.remainingBytes - byAge[i].size, before.remainingCount - 1)
    ensures p.Progress(byAge, i + 1, visited, after)
  {
    assert byAge[i..] == [byAge[i]] + byAge[i + 1..];
    TotalWithout(visited, byAge[i], byAge[i + 1..]);
    forall k | 0 <= k < |after.deleted| ensures p.Needed(after, k) {
      NeededStill(p, byAge[i], before, after, k);
    }
    forall d, k | d in after.deleted && i < k < |byAge| ensures d.modifiedAt <= byAge[k].modifiedAt {
      if d == byAge[i] {
        assert Rank(byAge[i], false) <= Rank(byAge[k], false);
      }
    }
  }

  lemma NeededStill(p: Policy, a: Archive, before: Report, after: Report, k: nat)
    requires k <= |before.deleted| && (k < |before.deleted| ==> p.Needed(before, k))
    requires p.OverCount(before) || (p.OverSize(before) && a.id !in p.graced)
    requires after == Report(before.deleted + [a], before.failed, before.remainingBytes - a.size, before.remainingCount - 1)
    ensures p.Needed(after, k)
  {
    assert after.deleted[k..] == before.deleted[k..] + ([a] + []);
    TotalWithout(before.deleted[k..], a, []);
    assert before.deleted[k..] + [] == before.deleted[k..];
    if k == |before.deleted| {
      assert before.deleted[k..] == [];
    }
  }

  lemma TotalWithout(s: seq<Archive>, a: Archive, t: seq<Archive>)
    ensures Total(s + ([a] + t)) == Total(s + t) + a.size
  {
    if s == [] {
      assert s + ([a] + t) == [a] + t && ([a] + t)[1..] == t && s + t == t;
    } else {
      assert (s + ([a] + t))[1..] == s[1..] + ([a] + t) && (s + t)[1..] == s[1..] + t;
      TotalWithout(s[1..], a, t);
    }
  }

  function PolicyFor(log: Ledger, s: seq<Archive>, maxMb: nat, maxCount: nat, callers: set<string>, now: int): Policy {
    Policy(maxMb, maxCount, callers + Kept(log, s, maxCount, now, false), callers + Kept(log, s, maxCount, now, true))
  }

  /** Whatever the limits: what callers and active recoveries need is kept, so are the two newest (one, when only
      one may stay), and nothing is graced beyond that but what was modified in the last fifteen minutes. */
  lemma PolicyKeeps(log: Ledger, s: seq<Archive>, maxMb: nat, maxCount: nat, callers: set<string>, now: int)
    ensures var p := PolicyFor(log, s, maxMb, maxCount, callers, now);
            && callers + Protected(log) <= p.keep <= p.graced
            && (forall a | a in Newest(s, if maxCount == 1 then 1 else 2) :: a.id in p.keep)
            && (forall a | a in s && now - a.modifiedAt <= 900 :: a.id in p.graced)
            && forall id | id in p.graced && id !in p.keep :: exists a :: a in s && a.id == id && now - a.modifiedAt <= 900
  {
    hide Newest, Protected;
  }

  /** Deletes or passes over one archive. */
  method PruneOne(store: Store, p: Policy, ghost byAge: seq<Archive>, ghost i: nat, a: Archive,
                  ghost visited: seq<Archive>, report: Report)
    returns (after: Report, ghost visitedAfter: seq<Archive>)
    requires i < |byAge| && byAge[i] == a && Ordered(byAge, false) && p.keep <= p.graced
    requires p.Progress(byAge, i, visited, report) && (p.OverSize(report) || p.OverCount(report))
    requires multiset(store.archives) == multiset(visited + byAge[i..])
    modifies store
    ensures p.Progress(byAge, i + 1, visitedAfter, after)
    ensures multiset(store.archives) == multiset(visitedAfter + byAge[i + 1..])
    ensures |after.failed| - |report.failed| == store.faults - old(store.faults)
  {
    after, visitedAfter := report, visited + [a];
    assert visited + byAge[i..] == visitedAfter + byAge[i + 1..];
    if a.id in p.keep || (!p.OverCount(report) && a.id in p.graced) {
      PassOver(p, byAge, i, visited, report, after);
    } else {
      WithoutSame(store.archives, a);
      var ok := store.Unlink(a);
      if ok {
        after := Report(report.deleted + [a], report.failed, report.remainingBytes - a.size, report.remainingCount - 1);
        Drop(p, byAge, i, visited, report, after);
        visitedAfter := visited;
      } else {
        after := report.(failed := report.failed + [a]);
        PassOver(p, byAge, i, visited, report, after);
      }
    }
  }

  /** Deletes the oldest unprotected archives until both limits are met.

      `visited` and `rest` split the survivors into those passed over and those
      never reached, both in order of age. */
  method Prune(store: Store, log: Ledger, maxMb: nat, maxCount: nat, callers: set<string>, now: int)
    returns (report: Report, ghost visited: seq<Archive>, ghost rest: seq<Archive>)
    modifies store
    ensures multiset(visited + rest) == multiset(store.archives)
    ensures multiset(old(store.archives)) == multiset(store.archives) + multiset(report.deleted)
    ensures report.remainingBytes == Total(visited + rest) && report.remainingCount == |visited + rest|
    ensures |report.failed| == store.faults - old(store.faults)
    ensures PolicyFor(log, old(store.archives), maxMb, maxCount, callers, now).Met(report, visited, rest)
  {
    var p := PolicyFor(log, store.archives, maxMb, maxCount, callers, now);
    var byAge := Sorted(store.archives, false);
    SortedIsSorted(store.archives, false);
    TotalSorted(store.archives, false);
    var i;
    report, visited, i := PruneSorted(store, p, byAge, |store.archives|, Total(store.archives));
    rest := byAge[i..];
  }

  lemma Start(p: Policy, byAge: seq<Archive>, report: Report)
    requires report == Report([], [], Total(byAge), |byAge|)
    ensures p.Progress(byAge, 0, [], report) && multiset(byAge) == multiset([] + byAge[0..])
  {
    assert byAge[0..] == byAge && [] + byAge == byAge;
  }

  /** Goes through the archives from the oldest on while a limit is not met. */
  method PruneSorted(store: Store, p: Policy, byAge: seq<Archive>, count: nat, bytes: nat)
    returns (report: Report, ghost visited: seq<Archive>, i: nat)
    requires Ordered(byAge, false) && p.keep <= p.graced && count == |byAge| && bytes == Total(byAge)
    requires multiset(store.archives) == multiset(byAge)
    modifies store
    ensures i <= |byAge| && p.Progress(byAge, i, visited, report)
    ensures multiset(store.archives) == multiset(visited + byAge[i..])
    ensures |report.failed| == store.faults - old(store.faults)
    ensures i < |byAge| ==> !p.OverSize(report) && !p.OverCount(report)
  {
    report := Report([], [], bytes, count);
    visited := [];
    i := 0;
    Start(p, byAge, report);
    while i < |byAge| && (p.OverSize(report) || p.OverCount(report))
      invariant 0 <= i <= |byAge| && p.Progress(byAge, i, visited, report)
      invariant multiset(store.archives) == multiset(visited + byAge[i..])
      invariant |report.failed| == store.faults - old(store.faults)
    {
      report, visited := PruneOne(store, p, byAge, i, byAge[i], visited, report);
      i := i + 1;
    }
  }

  lemma IdsAtMost(s: seq<Archive>)
    ensures |IdsOf(s)| <= |s|
  {
    if s == [] {
      assert IdsOf(s) == {};
    } else {
      IdsAtMost(s[1..]);
      assert s == [s[0]] + s[1..];
      assert IdsOf(s) == {s[0].id} + IdsOf(s[1..]);
    }
  }

  /** With one archive per id, no active recovery, no other protection and no failed deletion,
      the count limit is always met: what is kept as recent never exceeds it. */
  lemma CountLimitMet(log: Ledger, s: seq<Archive>, maxMb: nat, maxCount: nat, now: int,
                      report: Report, visited: seq<Archive>, rest: seq<Archive>)
    requires PolicyFor(log, s, maxMb, maxCount, {}, now).Met(report, visited, rest)
    requires report.remainingCount == |visited + rest|
    requires multiset(s) == multiset(visited + rest) + multiset(report.deleted)
    requires |IdsOf(s)| == |s| && ActiveIds(log) == {} && report.failed == []
    ensures !Over(maxCount, report.remainingCount)
  {
    var p := PolicyFor(log, s, maxMb, maxCount, {}, now);
    var survivors := visited + rest;
    if p.OverCount(report) {
      var recent := Newest(s, RecentCount(maxCount));
      assert p.keep == IdsOf(recent);
      assert forall a | a in survivors :: a.id in IdsOf(recent);
      SubsetSize(IdsOf(survivors), IdsOf(recent));
      IdsAtMost(recent);
      assert |multiset(s)| == |s| == |survivors| + |report.deleted|;
      IdsAtMost(survivors);
      IdsAtMost(report.deleted);
      forall a | a in s ensures a.id in IdsOf(survivors) + IdsOf(report.deleted) {
        assert a in multiset(s);
      }
      SubsetSize(IdsOf(s), IdsOf(survivors) + IdsOf(report.deleted));
    }
  }

  /** What a user deletion did with the archives it has looked at so far. */
  datatype Selection = Selection(deleted: seq<Archive>, passed: seq<Archive>, skipped: seq<string>, failed: seq<Archive>)
  {
    /** Requested archives are deleted, unless protected or impossible to delete; nothing else is. */
    ghost predicate Reviewed(looked: seq<Archive>, requested: set<string>, protectedIds: set<string>) {
      && multiset(looked) == multiset(passed) + multiset(deleted)
      && (forall a | a in deleted :: a.id in requested && a.id !in protectedIds)
      && (forall a | a in passed && a.id in requested :: a.id in protectedIds || a in failed)
      && (forall id :: id in skipped <==> id in requested && id in protectedIds && id in IdsOf(looked))
    }
  }

  lemma ReviewedNext(before: Selection, after: Selection, looked: seq<Archive>, a: Archive,
                     requested: set<string>, protectedIds: set<string>)
    requires before.Reviewed(looked, requested, protectedIds)
    requires
      || (after == before.(passed := before.passed + [a]) && a.id !in requested)
      || (after == before.(passed := before.passed + [a], skipped := before.skipped + [a.id])
          && a.id in requested && a.id in protectedIds)
      || (after == before.(deleted := before.deleted + [a]) && a.id in requested && a.id !in protectedIds)
      || (after == before.(passed := before.passed + [a], failed := before.failed + [a])
          && a.id in requested && a.id !in protectedIds)
    ensures after.Reviewed(looked + [a], requested, protectedIds)
  {
    assert IdsOf(looked + [a]) == IdsOf(looked) + {a.id};
    assert multiset(looked + [a]) == multiset(looked) + multiset{a};
    forall id ensures id in after.skipped <==> id in requested && id in protectedIds && id in IdsOf(looked + [a]) {
      assert id in before.skipped <==> id in requested && id in protectedIds && id in IdsOf(looked);
    }
  }

  method DeleteOne(store: Store, a: Archive, requested: set<string>, protectedIds: set<string>,
                   ghost looked: seq<Archive>, ghost later: seq<Archive>, before: Selection)
    returns (after: Selection)
    requires before.Reviewed(looked, requested, protectedIds)
    requires multiset(store.archives) == multiset(before.passed) + multiset([a] + later)
    modifies store
    ensures after.Reviewed(looked + [a], requested, protectedIds)
    ensures multiset(store.archives) == multiset(after.passed) + multiset(later)
    ensures |after.failed| - |before.failed| == store.faults - old(store.faults)
  {
    if a.id !in requested {
      after := before.(passed := before.passed + [a]);
    } else if a.id in protectedIds {
      after := before.(passed := before.passed + [a], skipped := before.skipped + [a.id]);
    } else {
      WithoutSame(store.archives, a);
      var ok := store.Unlink(a);
      after := if ok then before.(deleted := before.deleted + [a])
               else before.(passed := before.passed + [a], failed := before.failed + [a]);
    }
    ReviewedNext(before, after, looked, a, requested, protectedIds);
  }

  /** Deletes what the user selected, except checkpoints of active recoveries. */
  method DeleteSelected(store: Store, log: Ledger, requested: set<string>) returns (selection: Selection)
    modifies store
    ensures selection.Reviewed(old(store.archives), requested, Protected(log))
    ensures multiset(store.archives) == multiset(selection.passed)
    ensures |selection.failed| == store.faults - old(store.faults)
  {
    var archives := store.archives;
    var protectedIds := Protected(log);
    selection := Selection([], [], [], []);
    assert archives[0..] == archives;
    for i := 0 to |archives|
      invariant selection.Reviewed(archives[..i], requested, protectedIds)
      invariant multiset(store.archives) == multiset(selection.passed) + multiset(archives[i..])
      invariant |selection.failed| == store.faults - old(store.faults)
    {
      TakeNext(archives, i);
      SplitNext(archives, i);
      selection := DeleteOne(store, archives[i], requested, protectedIds, archives[..i], archives[i + 1..], selection);
    }
    TakeAll(archives);
  }
}
