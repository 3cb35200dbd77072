/** Restoring a project archive over the live project files.

    Every archived file is first written to an exclusive scratch file; only then
    are the originals moved to their backups and the scratch files published.
    A failure puts everything back, unless putting back fails as well. */
module ArchiveRestore {
  import opened FileSystem
  import opened Swap

  /** How one restore can end.  Only `Restored` returns; the other four raise. */
  datatype Outcome =
    | Restored            // published, and every scratch file is gone
    | LeftoverScratch     // published, but a scratch file could not be removed
    | RolledBack          // nothing has changed
    | LeftoverAfterRollback  // all files are back, but scratch files or new directories remain
    | RollbackFailed      // some file is only at its backup

  /** A file that could not be put back, and where its original content is kept if there was any. */
  datatype Unrestored = Unrestored(target: Path, backup: Path)

  /** The project the archive describes: archived files in place, other files of the scope gone. */
  function RestoredNodes(orig: Nodes, archived: map<Path, Bytes>, current: set<Path>, made: set<Path>): Nodes {
    (orig - (current - archived.Keys))
    + (map d | d in made :: Directory)
    + (map p | p in archived :: File(archived[p]))
  }

  /** The archived files whose content is not already on disk. */
  function Changed(orig: Nodes, archived: map<Path, Bytes>): set<Path> {
    set p | p in archived && !Holds(orig, p, File(archived[p]))
  }

  /** The names of the records that publish a file, or of those that only remove one. */
  function Targets(rs: seq<Record>, publish: bool): (names: seq<Path>)
    ensures forall p :: p in names <==> exists i :: 0 <= i < |rs| && rs[i].target == p && rs[i].stage.Some? == publish
  {
    if rs == [] then []
    else
      var last := rs[|rs| - 1];
      var rest := Targets(rs[..|rs| - 1], publish);
      assert rs == rs[..|rs| - 1] + [last];
      if last.stage.Some? == publish then rest + [last.target] else rest
  }

  /** `failed` names the records from `i` on whose flags are not all down, and nothing else. */
  ghost predicate Names(failed: seq<Unrestored>, now: seq<Record>, i: nat) {
    && (forall j | i <= j < |now| && (now[j].moved || now[j].published) :: Unrestored(now[j].target, now[j].backup) in failed)
    && (forall f | f in failed :: NamedBy(f, now, i))
  }

  ghost predicate NamedBy(f: Unrestored, now: seq<Record>, i: nat) {
    exists j | i <= j < |now| :: f == Unrestored(now[j].target, now[j].backup) && (now[j].moved || now[j].published)
  }

  lemma NamesNext(named: seq<Unrestored>, now: seq<Record>, i: nat, after: Record, failed: seq<Unrestored>)
    requires i < |now| && Names(named, now, i + 1) && after.target == now[i].target && after.backup == now[i].backup
    requires failed == if after.moved || after.published then named + [Unrestored(now[i].target, now[i].backup)] else named
    ensures Names(failed, now[i := after], i)
  {
    var next := now[i := after];
    forall f | f in failed ensures NamedBy(f, next, i) {
      if f in named {
        assert NamedBy(f, now, i + 1);
        var j :| i + 1 <= j < |now| && f == Unrestored(now[j].target, now[j].backup) && (now[j].moved || now[j].published);
        assert next[j] == now[j];
      } else {
        assert next[i] == after;
      }
    }
  }

  /** The transaction of one restore: its records, the directories it made, its scratch files. */
  class Transaction {
    const disk: Disk
    const archived: map<Path, Bytes>
    const current: set<Path>
    var records: seq<Record>
    var directories: seq<Path>
    var scratch: seq<Path>
    ghost const orig: Nodes
    ghost var backups: map<Path, Path>

    constructor (disk: Disk, archived: map<Path, Bytes>, current: set<Path>)
      ensures this.disk == disk && this.archived == archived && this.current == current
      ensures orig == disk.nodes && records == [] && Staged(disk.nodes)
    {
      this.disk, this.archived, this.current := disk, archived, current;
      records, directories, scratch := [], [], [];
      orig, backups := disk.nodes, map[];
    }

    function Scope(): set<Path> {
      archived.Keys + current
    }

    ghost predicate Above(d: Path) {
      exists t :: t in Scope() && |d| < |t| && t[..|d|] == d
    }

    /** Every path of the scope names a file or nothing, and none is a directory above another. */
    ghost predicate WellShaped() {
      && (forall t | t in Scope() && t in orig :: orig[t].File?)
      && (forall d :: Above(d) ==> d !in Scope())
    }

    /** A reason to fail: the system raised since there were `f` faults, or the scope is ill-shaped. */
    ghost predicate Excused(f: nat)
      reads disk
    {
      disk.faults > f || !WellShaped()
    }

    ghost predicate Prepared(r: Record)
      reads this
    {
      && r.target in Scope() && r.backup in scratch && Link(backups, r.target, r.backup)
      && (r.stage.Some? <==> r.target in archived)
      && (r.stage.Some? ==> r.stage.value in scratch && !Holds(orig, r.target, File(archived[r.target])))
    }

    /** The scratch files and directories beside the originals, which are all untouched in `n`. */
    ghost predicate Beside(n: Nodes)
      reads this
    {
      && Contains(orig, n)
      && n.Keys == orig.Keys + Elements(directories) + Elements(scratch)
      && Elements(scratch) !! orig.Keys && Elements(scratch) !! Elements(directories)
      && Elements(scratch) !! Scope()
      && Elements(directories) !! orig.Keys
      && (forall d | d in directories :: Holds(n, d, Directory) && Above(d))
      && (forall a, b :: 0 <= a < b < |directories| ==> directories[a] != directories[b])
    }

    /** Every backup name was reserved by this transaction. */
    ghost predicate Reserved()
      reads this
    {
      forall p | p in backups :: backups[p] in scratch
    }

    ghost predicate Staged(n: Nodes)
      reads this
    {
      && Beside(n) && Reserved()
      && Apart(records)
      && (forall i | 0 <= i < |records| ::
            && Prepared(records[i]) && !records[i].moved && !records[i].published
            && Holds(n, records[i].backup, File([]))
            && (records[i].stage.Some? ==>
                  Holds(n, records[i].stage.value, File(archived[records[i].target]))))
    }

    /** Every disk since history `h` still has all originals at their own paths. */
    ghost predicate OriginalsSince(h: seq<Nodes>)
      reads this, disk
    {
      h <= disk.history && forall k :: |h| <= k < |disk.history| ==> Contains(orig, disk.history[k])
    }

    ghost predicate Recorded(p: Path)
      reads this
    {
      exists i :: 0 <= i < |records| && records[i].target == p
    }

    /** Staging `p` either skips it, its content being right already, or opens its record. */
    ghost predicate Covered(p: Path)
      reads this
    {
      Recorded(p) || (p in archived && Holds(orig, p, File(archived[p])))
    }

    method MakeParent(d: Path) returns (ok: bool)
      requires Staged(disk.nodes) && Above(d)
      modifies this`directories, disk
      ensures Staged(disk.nodes)
      ensures disk.history == old(disk.history) + [disk.nodes]
      ensures old(disk.faults) <= disk.faults <= old(disk.faults) + 1 && (ok ==> disk.faults == old(disk.faults)) && (!ok ==> disk.faults > old(disk.faults) || d in old(disk.nodes))
      ensures forall p :: p != d ==> (p in disk.nodes <==> p in old(disk.nodes))
    {
      ok := disk.MakeDirectory(d, Directory);
      if ok {
        directories := directories + [d];
      }
    }

    /** The directories above `target` that do not exist, innermost first. */
    method FindMissing(target: Path) returns (missing: seq<Path>)
      requires target in Scope()
      ensures forall d | d in missing :: Above(d) && d !in disk.nodes
      ensures forall a, b :: 0 <= a < b < |missing| ==> missing[a] != missing[b]
    {
      missing := [];
      var parent := if target == [] then [] else Parent(target);
      while parent != [] && parent !in disk.nodes
        invariant parent == [] || (|parent| < |target| && parent == target[..|parent|])
        invariant forall d | d in missing :: Above(d) && d !in disk.nodes && |d| > |parent|
        invariant forall a, b :: 0 <= a < b < |missing| ==> missing[a] != missing[b]
        decreases |parent|
      {
        assert Above(parent);
        missing := missing + [parent];
        parent := Parent(parent);
      }
    }

    method MakeParents(target: Path) returns (ok: bool)
      requires Staged(disk.nodes) && target in Scope()
      modifies this`directories, disk
      ensures Staged(disk.nodes) && OriginalsSince(old(disk.history))
      ensures old(disk.faults) <= disk.faults <= old(disk.faults) + 1 && (ok ==> disk.faults == old(disk.faults)) && (!ok ==> disk.faults > old(disk.faults))
    {
      var missing := FindMissing(target);
      ok := true;
      for i := 0 to |missing|
        invariant Staged(disk.nodes) && OriginalsSince(old(disk.history))
        invariant disk.faults == old(disk.faults)
        invariant forall a :: 0 <= a < |missing| - i ==> missing[a] !in disk.nodes
      {
        ok := MakeParent(missing[|missing| - 1 - i]);
        if !ok {
          return;
        }
      }
    }

    method Reserve(parent: Path) returns (made: Option<Path>)
      requires Staged(disk.nodes)
      modifies this`scratch, disk
      ensures Staged(disk.nodes)
      ensures made.Some? ==> made.value !in old(disk.nodes) && made.value in scratch && Holds(disk.nodes, made.value, File([]))
      ensures forall p | p in old(disk.nodes) :: Holds(disk.nodes, p, old(disk.nodes)[p])
      ensures old(scratch) <= scratch
      ensures disk.history == old(disk.history) + [disk.nodes]
      ensures old(disk.faults) <= disk.faults <= old(disk.faults) + 1 && (made.Some? ==> disk.faults == old(disk.faults)) && (made.None? ==> disk.faults > old(disk.faults))
    {
      made := disk.MakeTemporary(parent, Scope());
      if made.Some? {
        scratch := scratch + [made.value];
      }
    }

    /** Writes the archived content of `target` to its stage file. */
    method Fill(stage: Path, target: Path) returns (ok: bool)
      requires Staged(disk.nodes) && target in archived
      requires stage in scratch && stage in disk.nodes
      requires forall i :: 0 <= i < |records| ==> stage !in Foot(records[i])
      modifies disk
      ensures Staged(disk.nodes) && disk.nodes.Keys == old(disk.nodes).Keys
      ensures ok ==> Holds(disk.nodes, stage, File(archived[target]))
      ensures disk.history == old(disk.history) + [disk.nodes]
      ensures old(disk.faults) <= disk.faults <= old(disk.faults) + 1 && (ok ==> disk.faults == old(disk.faults)) && (!ok ==> disk.faults > old(disk.faults))
    {
      ok := disk.WriteFile(stage, archived[target]);
      forall i | 0 <= i < |records|
        ensures Holds(disk.nodes, records[i].backup, File([]))
        ensures records[i].stage.Some? ==>
                  Holds(disk.nodes, records[i].stage.value, File(archived[records[i].target]))
      {
        assert stage !in Foot(records[i]);
      }
    }

    /** The stage file of `target`, holding its archived content; none for a path the archive lacks. */
    method OpenStage(target: Path, parent: Path) returns (ok: bool, stage: Option<Path>)
      requires Staged(disk.nodes)
      modifies this`scratch, disk
      ensures Staged(disk.nodes) && OriginalsSince(old(disk.history))
      ensures old(disk.faults) <= disk.faults <= old(disk.faults) + 1 && (ok ==> disk.faults == old(disk.faults)) && (!ok ==> disk.faults > old(disk.faults))
      ensures ok ==> (stage.Some? <==> target in archived)
      ensures ok && stage.Some? ==>
                && stage.value in scratch && Holds(disk.nodes, stage.value, File(archived[target]))
                && forall i :: 0 <= i < |records| ==> stage.value !in Foot(records[i])
    {
      ok, stage := true, None;
      if target in archived {
        stage := Reserve(parent);
        ok := stage.Some?;
        if ok {
          ok := Fill(stage.value, target);
        }
      }
    }

    /** Opens the record of one path of the scope, or finds that the path needs none. */
    method StageOne(target: Path) returns (ok: bool)
      requires Staged(disk.nodes) && target in Scope() && !Recorded(target)
      modifies this`records, this`directories, this`scratch, this`backups, disk
      ensures Staged(disk.nodes) && OriginalsSince(old(disk.history))
      ensures old(disk.faults) <= disk.faults <= old(disk.faults) + 1 && (ok ==> disk.faults == old(disk.faults)) && (!ok ==> Excused(old(disk.faults)))
      ensures ok ==> Covered(target)
      ensures records == old(records)
              || (|records| == |old(records)| + 1 && records[..|old(records)|] == old(records)
                  && records[|old(records)|].target == target)
    {
      ok := disk.Attempt();
      if !ok || (target in disk.nodes && !disk.nodes[target].File?) {
        return false;
      }
      if target in archived && Holds(disk.nodes, target, File(archived[target])) {
        assert target in orig;
        return true;
      }
      ok := MakeParents(target);
      if ok {
        ok := OpenRecord(target);
      }
    }

    method OpenRecord(target: Path) returns (ok: bool)
      requires Staged(disk.nodes) && target in Scope() && !Recorded(target)
      requires target in archived ==> !Holds(orig, target, File(archived[target]))
      modifies this`records, this`scratch, this`backups, disk
      ensures Staged(disk.nodes) && OriginalsSince(old(disk.history))
      ensures ok ==> |records| == |old(records)| + 1 && records[..|old(records)|] == old(records)
                     && records[|old(records)|].target == target
      ensures !ok ==> records == old(records)
      ensures old(disk.faults) <= disk.faults <= old(disk.faults) + 1 && (ok ==> disk.faults == old(disk.faults)) && (!ok ==> disk.faults > old(disk.faults))
    {
      var parent := if target == [] then [] else Parent(target);
      var stage: Option<Path>;
      ok, stage := OpenStage(target, parent);
      if !ok {
        return;
      }
      var backup := Reserve(parent);
      if backup.None? {
        return false;
      }
      AddRecord(Record(target, stage, backup.value, false, false));
    }

    method AddRecord(r: Record)
      requires Staged(disk.nodes) && !Recorded(r.target) && r.target in Scope()
      requires r.backup in scratch && Holds(disk.nodes, r.backup, File([]))
      requires r.stage.Some? <==> r.target in archived
      requires r.stage.Some? ==>
                 && r.stage.value in scratch && r.stage.value != r.backup
                 && Holds(disk.nodes, r.stage.value, File(archived[r.target]))
                 && !Holds(orig, r.target, File(archived[r.target]))
      requires forall i :: 0 <= i < |records| ==> Foot(records[i]) !! (Foot(r) - {r.target})
      requires !r.moved && !r.published
      modifies this`records, this`backups
      ensures Staged(disk.nodes) && records == old(records) + [r]
    {
      forall i | 0 <= i < |records| ensures Foot(records[i]) !! Foot(r) {
        assert Prepared(records[i]) && !(records[i].target == r.target);
      }
      backups := backups[r.target := r.backup];
      records := records + [r];
    }

    /** All archive reads and shape checks, before any original moves. */
    method StageAll(scope: seq<Path>) returns (ok: bool)
      requires Staged(disk.nodes) && records == []
      requires Elements(scope) == Scope() && forall i, j :: 0 <= i < j < |scope| ==> scope[i] != scope[j]
      modifies this`records, this`directories, this`scratch, this`backups, disk
      ensures Staged(disk.nodes) && OriginalsSince(old(disk.history))
      ensures ok ==> forall p | p in Scope() :: Covered(p)
      ensures old(disk.faults) <= disk.faults <= old(disk.faults) + 1 && (ok ==> disk.faults == old(disk.faults)) && (!ok ==> Excused(old(disk.faults)))
    {
      hide Transaction.Staged;
      ok := true;
      for i := 0 to |scope|
        invariant Staged(disk.nodes) && OriginalsSince(old(disk.history))
        invariant forall j :: 0 <= j < i ==> Covered(scope[j])
        invariant forall r | r in records :: r.target in scope[..i]
        invariant disk.faults == old(disk.faults)
      {
        label before:
        ok := StageOne(scope[i]);
        if !ok {
          return;
        }
        forall j | 0 <= j < i ensures Covered(scope[j]) {
          if old@before(Recorded(scope[j])) {
            var k :| 0 <= k < |old@before(records)| && old@before(records)[k].target == scope[j];
            assert records[k].target == scope[j];
          }
        }
      }
    }

    /** Undoes one record; `after` is the record with the flags the disk then has.  Only a raised error stops it. */
    method PutBack(i: nat, ghost base: Nodes, ghost now: seq<Record>) returns (ok: bool, ghost after: Record)
      requires i < |records| == |now| && now[i] == records[i]
      requires Apart(now) && AllAt(base, disk.nodes, now)
      requires Contains(orig, base) && Linked(orig, backups, now) && Loose(base, now[i])
      modifies disk
      ensures disk.faults == old(disk.faults) + if ok then 0 else 1
      ensures after.target == now[i].target && after.stage == now[i].stage && after.backup == now[i].backup
      ensures Apart(now[i := after]) && AllAt(base, disk.nodes, now[i := after]) && Linked(orig, backups, now[i := after])
      ensures KeptSince(orig, backups, old(disk.history), disk.history)
      ensures ok <==> !after.moved && !after.published
    {
      ok, after := true, now[i];
      assert now[i := after] == now;
      var r := records[i];
      if r.published {
        ok := disk.Replace(r.target, r.stage.value);
        if ok {
          after := after.(published := false);
          StepAt(base, old(disk.nodes), disk.nodes, now, i, after);
        }
        KeptByRecords(orig, backups, base, disk.nodes, now[i := after]);
      }
      if ok && r.moved {
        label between:
        ok := disk.Replace(r.backup, r.target);
        ghost var half := after;
        if ok {
          after := after.(moved := false);
          StepAt(base, old@between(disk.nodes), disk.nodes, now[i := half], i, after);
          assert now[i := half][i := after] == now[i := after];
        }
        KeptByRecords(orig, backups, base, disk.nodes, now[i := after]);
      }
    }

    /** The staged content of `r` can be renamed. */
    predicate Loose(base: Nodes, r: Record) {
      r.stage.Some? ==> r.stage.value in base && !base[r.stage.value].Directory?
    }

    /** Undoes all records, last first, going on past the ones that cannot be undone.  Each of these is named,
        and each took one raised error. */
    method RollBack(ghost base: Nodes) returns (failed: seq<Unrestored>, ghost now: seq<Record>)
      requires Apart(records) && AllAt(base, disk.nodes, records)
      requires Contains(orig, base) && Linked(orig, backups, records) && forall r | r in records :: Loose(base, r)
      modifies disk
      ensures |failed| == disk.faults - old(disk.faults)
      ensures KeptSince(orig, backups, old(disk.history), disk.history)
      ensures SameFeet(records, now) && AllAt(base, disk.nodes, now) && Linked(orig, backups, now)
      ensures Names(failed, now, 0)
    {
      failed, now := [], records;
      var i := |records|;
      while i > 0
        invariant 0 <= i <= |records| == |now| && SameFeet(records, now) && Linked(orig, backups, now)
        invariant Apart(now) && AllAt(base, disk.nodes, now)
        invariant forall j :: 0 <= j < i ==> now[j] == records[j]
        invariant Names(failed, now, i)
        invariant KeptSince(orig, backups, old(disk.history), disk.history)
        invariant |failed| == disk.faults - old(disk.faults)
      {
        i := i - 1;
        var ok: bool;
        ghost var after;
        ghost var before, named := now, failed;
        ok, after := PutBack(i, base, now);
        now := now[i := after];
        if !ok {
          failed := failed + [Unrestored(records[i].target, records[i].backup)];
        }
        NamesNext(named, before, i, after, failed);
      }
    }

    /** Of the originals, exactly the named ones are not at their own path; each is at the backup named with
        it, which this transaction reserved. */
    ghost predicate Away(failed: seq<Unrestored>, n: Nodes)
      reads this
    {
      && (forall p | p in orig :: !Holds(n, p, orig[p]) <==> exists f | f in failed :: f.target == p)
      && (forall f | f in failed :: f.backup in scratch && (f.target in orig ==> Holds(n, f.backup, orig[f.target])))
    }

    /** An original whose record is undone is at its own path; otherwise it is away, at the record's backup. */
    lemma AwayByRecord(base: Nodes, n: Nodes, now: seq<Record>, j: nat)
      requires Prepares(base) && SameFeet(records, now) && j < |now| && At(base, n, now[j])
      ensures now[j].target in orig ==>
                var p := now[j].target;
                if now[j].moved || now[j].published then !Holds(n, p, orig[p]) && Holds(n, now[j].backup, orig[p])
                else Holds(n, p, orig[p])
      ensures now[j].backup in scratch
    {
      assert Prepared(records[j]);
      assert Contains(orig, base);
    }

    lemma AwayByRecords(base: Nodes, n: Nodes, now: seq<Record>, failed: seq<Unrestored>)
      requires Prepares(base) && SameFeet(records, now) && AllAt(base, n, now) && Names(failed, now, 0)
      ensures Away(failed, n)
    {
      hide Transaction.Prepares, At;
      forall f | f in failed
        ensures f.backup in scratch && (f.target in orig ==> !Holds(n, f.target, orig[f.target]) && Holds(n, f.backup, orig[f.target]))
      {
        assert NamedBy(f, now, 0);
        var j :| 0 <= j < |now| && f == Unrestored(now[j].target, now[j].backup) && (now[j].moved || now[j].published);
        AwayByRecord(base, n, now, j);
      }
      forall p | p in orig && !Holds(n, p, orig[p]) ensures exists f :: f in failed && f.target == p {
        var j := MovedFrom(base, n, now, p);
        AwayByRecord(base, n, now, j);
        assert Unrestored(now[j].target, now[j].backup) in failed;
      }
    }

    lemma MovedFrom(base: Nodes, n: Nodes, now: seq<Record>, p: Path) returns (j: nat)
      requires Prepares(base) && SameFeet(records, now) && AllAt(base, n, now)
      requires p in orig && !Holds(n, p, orig[p])
      ensures j < |now| && now[j].target == p
    {
      assert !Same(base, n, p);
      assert Touched(now, p);
      j :| 0 <= j < |now| && p in Foot(now[j]);
      assert Prepared(records[j]);
    }

    method RemoveScratch() returns (ok: bool)
      modifies disk
      ensures ok ==> disk.nodes == old(disk.nodes) - Elements(scratch)
      ensures disk.faults >= old(disk.faults) && (ok <==> disk.faults == old(disk.faults))
      ensures SameOutside(old(disk.nodes), disk.nodes, Elements(scratch))
      ensures old(disk.history) <= disk.history
      ensures forall k :: |old(disk.history)| <= k < |disk.history| ==>
                SameOutside(old(disk.nodes), disk.history[k], Elements(scratch))
    {
      for i := 0 to |scratch|
        invariant disk.nodes == old(disk.nodes) - Elements(scratch[..i])
        invariant disk.faults == old(disk.faults)
        invariant old(disk.history) <= disk.history
        invariant forall k :: |old(disk.history)| <= k < |disk.history| ==>
                    SameOutside(old(disk.nodes), disk.history[k], Elements(scratch))
      {
        assert Elements(scratch[..i + 1]) == Elements(scratch[..i]) + {scratch[i]};
        ok := disk.Remove(scratch[i], true);
        if !ok {
          return;
        }
      }
      assert scratch[..|scratch|] == scratch;
      ok := true;
    }

    method RemoveDirectories() returns (ok: bool)
      requires forall a, b :: 0 <= a < b < |directories| ==> directories[a] != directories[b]
      requires forall d | d in directories :: d in disk.nodes
      modifies disk
      ensures disk.faults >= old(disk.faults) && (ok <==> disk.faults == old(disk.faults))
      ensures ok ==> disk.nodes == old(disk.nodes) - Elements(directories)
      ensures SameOutside(old(disk.nodes), disk.nodes, Elements(directories))
      ensures old(disk.history) <= disk.history
      ensures forall k :: |old(disk.history)| <= k < |disk.history| ==>
                SameOutside(old(disk.nodes), disk.history[k], Elements(directories))
    {
      var i := |directories|;
      while i > 0
        invariant 0 <= i <= |directories|
        invariant disk.nodes == old(disk.nodes) - Elements(directories[i..])
        invariant disk.faults == old(disk.faults)
        invariant old(disk.history) <= disk.history
        invariant forall k :: |old(disk.history)| <= k < |disk.history| ==>
                    SameOutside(old(disk.nodes), disk.history[k], Elements(directories))
      {
        i := i - 1;
        assert Elements(directories[i..]) == Elements(directories[i + 1..]) + {directories[i]};
        assert directories[i] in directories && directories[i] !in directories[i + 1..];
        ok := disk.Remove(directories[i], false);
        if !ok {
          return;
        }
      }
      assert directories[0..] == directories;
      ok := true;
    }

    ghost function Extra(): set<Path>
      reads this
    {
      Elements(scratch) + Elements(directories)
    }

    lemma OutsideExtra(base: Nodes, n: Nodes)
      requires Beside(base) && SameOutside(base, n, Extra())
      ensures Contains(orig, n) && n.Keys <= orig.Keys + Extra()
    {
      forall p | p in orig ensures Holds(n, p, orig[p]) {
        assert Same(base, n, p);
      }
      forall p | p in n ensures p in orig.Keys + Extra() {
        assert p !in Extra() ==> Same(base, n, p);
      }
    }

    ghost predicate Published(base: Nodes, n: Nodes)
      reads this
    {
      && Beside(base) && Linked(orig, backups, records) && AllAt(base, n, records)
      && (forall i | 0 <= i < |records| ::
            && Prepared(records[i]) && Done(base, records[i])
            && (records[i].stage.Some? ==>
                  Holds(base, records[i].stage.value, File(archived[records[i].target]))))
      && (forall p | p in Scope() :: Covered(p))
    }

    ghost function Final(): Nodes
      reads this
    {
      RestoredNodes(orig, archived, current, Elements(directories))
    }

    lemma RecordedPublished(base: Nodes, n: Nodes, i: nat)
      requires Published(base, n) && i < |records|
      ensures Same(n, Final(), records[i].target)
    {
      assert At(base, n, records[i]) && Prepared(records[i]) && Done(base, records[i]);
    }

    lemma UnrecordedPublished(base: Nodes, n: Nodes, p: Path)
      requires Published(base, n) && !Recorded(p) && p !in scratch
      ensures Same(n, Final(), p)
    {
      assert Same(base, n, p);
    }

    /** Once every record is done, the disk is the archived project but for scratch files. */
    lemma PublishedIsRestored(base: Nodes, n: Nodes)
      requires Published(base, n)
      ensures SameOutside(Final(), n, Elements(scratch)) && Elements(scratch) !! Final().Keys
    {
      forall p | p !in scratch ensures Same(Final(), n, p) {
        if Recorded(p) {
          var i :| 0 <= i < |records| && records[i].target == p;
          RecordedPublished(base, n, i);
        } else {
          UnrecordedPublished(base, n, p);
        }
      }
    }

    lemma PublishedNames(base: Nodes, n: Nodes)
      requires Published(base, n)
      ensures Elements(Targets(records, true)) == Changed(orig, archived)
      ensures Elements(Targets(records, false)) == current - archived.Keys
    {
      forall i | 0 <= i < |records| ensures records[i].target in Scope() {
        assert Prepared(records[i]);
      }
      assert forall p | p in Scope() :: Covered(p);
    }

    /** Publishes the archive over the scope, or puts the project back.

        `commit` is the length of the history at which every file was published; up to it no
        original is ever lost.  When putting back fails, `failed` names exactly the originals
        that are away, and every one of them is at the backup named with it; each of them cost one
        raised error of the undo. */
    method Run(scope: seq<Path>)
      returns (outcome: Outcome, restored: seq<Path>, deleted: seq<Path>, failed: seq<Unrestored>,
               ghost commit: nat, ghost published: bool, ghost stopped: nat, ghost raised: nat)
      requires Staged(disk.nodes) && records == [] && orig == disk.nodes
      requires Elements(scope) == Scope() && forall i, j :: 0 <= i < j < |scope| ==> scope[i] != scope[j]
      modifies this, disk
      ensures Elements(scratch) !! orig.Keys + Scope() && Elements(directories) !! orig.Keys
      ensures forall d | d in directories :: Above(d)
      ensures outcome.Restored? ==> disk.nodes == Final()
      ensures !outcome.Restored? ==> Excused(old(disk.faults))
      ensures outcome.LeftoverScratch? ==> SameOutside(Final(), disk.nodes, Elements(scratch))
      ensures outcome.RolledBack? ==> disk.nodes == orig
      ensures outcome.LeftoverAfterRollback? ==> Contains(orig, disk.nodes) && disk.nodes.Keys <= orig.Keys + Extra()
      ensures outcome.RollbackFailed? <==> failed != []
      ensures outcome.RollbackFailed? ==> Away(failed, disk.nodes)
      ensures Reserved()
      // which outcome it is: `stopped` counts the errors until publishing ended, `raised` those before the clean-up
      ensures old(disk.faults) <= stopped <= old(disk.faults) + 1 && stopped <= raised <= disk.faults
      ensures if published then stopped == raised == old(disk.faults) else stopped > old(disk.faults) || !WellShaped()
      ensures |failed| == raised - stopped
      ensures outcome.RollbackFailed? <==> !published && raised > stopped
      ensures outcome.Restored? <==> published && disk.faults == raised
      ensures outcome.LeftoverScratch? <==> published && disk.faults > raised
      ensures outcome.RolledBack? <==> !published && disk.faults == stopped
      ensures outcome.LeftoverAfterRollback? <==> !published && failed == [] && disk.faults > raised
      ensures |old(disk.history)| <= commit <= |disk.history| && old(disk.history) <= disk.history
      ensures forall k :: |old(disk.history)| <= k < commit ==> Kept(orig, backups, disk.history[k])
      ensures !outcome.Restored? && !outcome.LeftoverScratch? ==> commit == |disk.history|
      ensures outcome.Restored? || outcome.LeftoverScratch? ==>
                Elements(restored) == Changed(orig, archived) && Elements(deleted) == current - archived.Keys
    {
      restored, deleted, failed := [], [], [];
      var ok: bool;
      ghost var base;
      ok, base := Attempt(scope);
      commit, published, stopped, raised := |disk.history|, ok, disk.faults, disk.faults;
      if ok {
        outcome := Commit(base);
        restored, deleted := Targets(records, true), Targets(records, false);
      } else {
        outcome, failed, raised := Recover(base);
        commit := |disk.history|;
      }
    }

    /** Stages and publishes; `base` is the disk once staging ended. */
    method Attempt(scope: seq<Path>) returns (ok: bool, ghost base: Nodes)
      requires Staged(disk.nodes) && records == []
      requires Elements(scope) == Scope() && forall i, j :: 0 <= i < j < |scope| ==> scope[i] != scope[j]
      modifies this, disk
      ensures Undoable(base, disk.nodes)
      ensures KeptSince(orig, backups, old(disk.history), disk.history)
      ensures old(disk.faults) <= disk.faults <= old(disk.faults) + 1 && (!ok ==> Excused(old(disk.faults)))
      ensures ok ==> Published(base, disk.nodes) && disk.faults == old(disk.faults)
    {
      ok := StageAll(scope);
      base := disk.nodes;
      assert AllAt(base, disk.nodes, records);
      if ok {
        ok := Publish();
      }
    }

    /** What undoing the records relies on. */
    ghost predicate Undoable(base: Nodes, n: Nodes)
      reads this
    {
      AllAt(base, n, records) && Prepares(base)
    }

    ghost predicate Prepares(base: Nodes)
      reads this
    {
      && Apart(records) && Linked(orig, backups, records) && Beside(base) && Reserved()
      && forall i | 0 <= i < |records| ::
           && Prepared(records[i])
           && (records[i].stage.Some? ==> Holds(base, records[i].stage.value, File(archived[records[i].target])))
    }

    method Commit(ghost base: Nodes) returns (outcome: Outcome)
      requires Published(base, disk.nodes)
      modifies disk
      ensures outcome in {Restored, LeftoverScratch}
      ensures outcome.Restored? ==> disk.nodes == Final()
      ensures disk.faults >= old(disk.faults) && (outcome.Restored? <==> disk.faults == old(disk.faults))
      ensures SameOutside(Final(), disk.nodes, Elements(scratch))
      ensures old(disk.history) <= disk.history
      ensures Elements(Targets(records, true)) == Changed(orig, archived)
      ensures Elements(Targets(records, false)) == current - archived.Keys
    {
      PublishedIsRestored(base, disk.nodes);
      PublishedNames(base, disk.nodes);
      Stripped(Final(), disk.nodes, Elements(scratch));
      var ok := RemoveScratch();
      OutsideTransitive(Final(), old(disk.nodes), disk.nodes, Elements(scratch));
      outcome := if ok then Restored else LeftoverScratch;
    }

    lemma NothingInTheWay(base: Nodes)
      requires Staged(base) && WellShaped()
      ensures forall i :: 0 <= i < |records| ==> Unobstructed(base, records[i])
    {
      forall i | 0 <= i < |records| ensures Unobstructed(base, records[i]) {
        assert Prepared(records[i]);
        assert records[i].target !in directories;
      }
    }

    method Publish() returns (ok: bool)
      requires Staged(disk.nodes) && forall p | p in Scope() :: Covered(p)
      modifies this`records, disk
      ensures Undoable(old(disk.nodes), disk.nodes)
      ensures KeptSince(orig, backups, old(disk.history), disk.history)
      ensures old(disk.faults) <= disk.faults <= old(disk.faults) + 1 && (ok ==> disk.faults == old(disk.faults)) && (!ok ==> Excused(old(disk.faults)))
      ensures ok ==> Published(old(disk.nodes), disk.nodes)
    {
      ghost var base := disk.nodes;
      ghost var staged := records;
      if WellShaped() {
        NothingInTheWay(base);
      }
      ok, records := PublishAll(disk, records, orig, backups);
      forall i | 0 <= i < |records|
        ensures Prepared(records[i])
        ensures records[i].stage.Some? ==> Holds(base, records[i].stage.value, File(archived[records[i].target]))
      {
        assert old(Prepared(staged[i]));
      }
      if ok {
        forall p | p in Scope() ensures Covered(p) {
          if old(Recorded(p)) {
            var i :| 0 <= i < |staged| && staged[i].target == p;
            assert records[i].target == p;
          }
        }
      }
    }

    /** The error path: undo, and only after a complete undo remove scratch files and new directories. */
    method Recover(ghost base: Nodes) returns (outcome: Outcome, failed: seq<Unrestored>, ghost raised: nat)
      requires Undoable(base, disk.nodes)
      modifies disk
      ensures disk.faults >= raised == old(disk.faults) + |failed|
      ensures failed != [] ==> disk.faults == raised
      ensures failed == [] ==> (outcome.RolledBack? <==> disk.faults == raised)
      ensures outcome in {RolledBack, LeftoverAfterRollback, RollbackFailed}
      ensures outcome.RolledBack? ==> disk.nodes == orig
      ensures outcome.LeftoverAfterRollback? ==> Contains(orig, disk.nodes) && disk.nodes.Keys <= orig.Keys + Extra()
      ensures outcome.RollbackFailed? <==> failed != []
      ensures outcome.RollbackFailed? ==> Away(failed, disk.nodes)
      ensures KeptSince(orig, backups, old(disk.history), disk.history)
    {
      ghost var now;
      forall r | r in records ensures Loose(base, r) {
        var i :| 0 <= i < |records| && records[i] == r;
        assert Prepared(records[i]);
      }
      failed, now := RollBack(base);
      raised := disk.faults;
      KeptByRecords(orig, backups, base, disk.nodes, now);
      AwayByRecords(base, disk.nodes, now, failed);
      if failed != [] {
        return RollbackFailed, failed, raised;
      }
      AllUndone(base, disk.nodes, now, Elements(scratch));
      outcome := CleanUp(base);
    }

    method CleanUp(ghost base: Nodes) returns (outcome: Outcome)
      requires Beside(base) && SameOutside(base, disk.nodes, Elements(scratch))
      modifies disk
      ensures disk.faults >= old(disk.faults) && (outcome.RolledBack? <==> disk.faults == old(disk.faults))
      ensures outcome in {RolledBack, LeftoverAfterRollback}
      ensures outcome.RolledBack? ==> disk.nodes == orig
      ensures outcome.LeftoverAfterRollback? ==> Contains(orig, disk.nodes) && disk.nodes.Keys <= orig.Keys + Extra()
      ensures KeptSince(orig, backups, old(disk.history), disk.history)
    {
      var ok := RemoveScratch();
      forall k | |old(disk.history)| <= k < |disk.history| ensures Kept(orig, backups, disk.history[k]) {
        OutsideExtra(base, disk.history[k]);
      }
      OutsideExtra(base, disk.nodes);
      if !ok {
        return LeftoverAfterRollback;
      }
      forall d | d in directories ensures d in disk.nodes {
        assert Same(base, old(disk.nodes), d) && Same(old(disk.nodes), disk.nodes, d);
      }
      label scratchGone:
      ok := RemoveDirectories();
      forall k | |old@scratchGone(disk.history)| <= k < |disk.history| ensures Kept(orig, backups, disk.history[k]) {
        OutsideExtra(base, disk.history[k]);
      }
      OutsideExtra(base, disk.nodes);
      outcome := if ok then RolledBack else LeftoverAfterRollback;
    }
  }
}
