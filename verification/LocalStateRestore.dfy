/** Restoring the host's own state: several directory roots swapped as one transaction.

    Each expected root is staged beside the live one and then swapped in; the
    live tree waits at a backup until all roots are swapped.  Every error either
    leaves the roots as they were or names the paths that hold the old state. */
module LocalStateRestore {
  import opened FileSystem
  import opened Swap

  /** One root with the hidden siblings this restore uses for it. */
  datatype Root = Root(scope: string, path: Path, expected: bool, staged: Path, backup: Path)
  datatype Member = Member(scope: string, name: Path, content: Bytes)

  /** How a restore can end.  `Failed` re-raises the first error; the outcomes with paths are recovery errors. */
  datatype Outcome =
    | Committed
    | Failed
    | StagingUncleaned(paths: set<Path>)   // no root has moved, but staged trees remain
    | CommittedUncleaned(paths: set<Path>) // all roots are swapped, but temporary trees remain
    | RecoveryNeeded(paths: set<Path>)     // some root could not be put back or cleaned up after

  /** The hidden sibling of a root that one restore uses, told apart by the restore's random token. */
  function Sibling(root: Path, token: string, suffix: string): Path {
    if root == [] then []
    else Parent(root) + ["." + root[|root| - 1] + ".vrcforge-restore-" + token + suffix]
  }

  function StagePath(root: Path, token: string): Path {
    Sibling(root, token, ".staged")
  }

  function BackupPath(root: Path, token: string): Path {
    Sibling(root, token, ".backup")
  }

  lemma SiblingsDiffer(a: Path, b: Path, token: string)
    requires a != [] && b != []
    ensures StagePath(a, token) != BackupPath(b, token)
    ensures a != b ==> StagePath(a, token) != StagePath(b, token) && BackupPath(a, token) != BackupPath(b, token)
  {
    var s, t := StagePath(a, token), BackupPath(b, token);
    assert s[|s| - 1][|s[|s| - 1]| - 1] == 'd' && t[|t| - 1][|t[|t| - 1]| - 1] == 'p';
    if StagePath(a, token) == StagePath(b, token) {
      SiblingInjective(a, b, token, ".staged");
    }
    if BackupPath(a, token) == BackupPath(b, token) {
      SiblingInjective(a, b, token, ".backup");
    }
  }

  lemma SiblingInjective(a: Path, b: Path, token: string, suffix: string)
    requires a != [] && b != [] && Sibling(a, token, suffix) == Sibling(b, token, suffix)
    ensures a == b
  {
    var s, t := Sibling(a, token, suffix), Sibling(b, token, suffix);
    var m, n := a[|a| - 1], b[|b| - 1];
    var tail := ".vrcforge-restore-" + token + suffix;
    assert Parent(a) == s[..|s| - 1] == t[..|t| - 1] == Parent(b);
    assert s[|s| - 1] == "." + m + tail && t[|t| - 1] == "." + n + tail;
    assert m == ("." + m + tail)[1..1 + |m|] && n == ("." + n + tail)[1..1 + |n|];
    assert a == Parent(a) + [m] && b == Parent(b) + [n];
  }

  /** The tree that the archive holds for one root. */
  function Archived(members: seq<Member>, scope: string): map<Path, Bytes> {
    if members == [] then map[]
    else
      var last := members[|members| - 1];
      var rest := Archived(members[..|members| - 1], scope);
      if last.scope == scope then rest[last.name := last.content] else rest
  }

  lemma ArchivedFrom(members: seq<Member>, scope: string)
    ensures forall name | name in Archived(members, scope) ::
              exists j :: 0 <= j < |members| && members[j].scope == scope && members[j].name == name
  {
    if members != [] {
      var front := members[..|members| - 1];
      ArchivedFrom(front, scope);
      forall name | name in Archived(members, scope)
        ensures exists j :: 0 <= j < |members| && members[j].scope == scope && members[j].name == name
      {
        if name in Archived(front, scope) {
          var j :| 0 <= j < |front| && front[j].scope == scope && front[j].name == name;
          assert members[j] == front[j];
        } else {
          assert members[|members| - 1].name == name;
        }
      }
    }
  }

  function RecordOf(root: Root): Record {
    Record(root.path, if root.expected then Some(root.staged) else None, root.backup, false, false)
  }

  /** All paths of all roots are different. */
  ghost predicate Plan(roots: seq<Root>) {
    && (forall i :: 0 <= i < |roots| ==>
          roots[i].path != roots[i].staged && roots[i].path != roots[i].backup && roots[i].staged != roots[i].backup)
    && (forall i, j :: 0 <= i < j < |roots| ==>
          && roots[i].scope != roots[j].scope
          && {roots[i].path, roots[i].staged, roots[i].backup} !! {roots[j].path, roots[j].staged, roots[j].backup})
  }

  /** Siblings named by a token that no root's name uses make a plan. */
  lemma SiblingsPlan(roots: seq<Root>, token: string)
    requires forall r | r in roots :: r.path != [] && r.staged == StagePath(r.path, token) && r.backup == BackupPath(r.path, token)
    requires forall i, j :: 0 <= i < j < |roots| ==> roots[i].path != roots[j].path && roots[i].scope != roots[j].scope
    requires forall r, q | r in roots && q in roots :: r.path != q.staged && r.path != q.backup
    ensures Plan(roots)
  {
    forall i, j | 0 <= i < |roots| && 0 <= j < |roots|
      ensures roots[i].staged != roots[j].backup
      ensures i != j ==> roots[i].staged != roots[j].staged && roots[i].backup != roots[j].backup
    {
      assert roots[i] in roots && roots[j] in roots;
      SiblingsDiffer(roots[i].path, roots[j].path, token);
    }
    assert forall i, j | 0 <= i < |roots| && 0 <= j < |roots| :: roots[i] in roots && roots[j] in roots;
  }

  lemma PlanApart(roots: seq<Root>, rs: seq<Record>)
    requires Plan(roots) && |rs| <= |roots|
    requires forall i :: 0 <= i < |rs| ==> rs[i] == RecordOf(roots[i])
    ensures Apart(rs)
  {
    forall i, j | 0 <= i < j < |rs| ensures Foot(rs[i]) !! Foot(rs[j]) {
      assert Foot(rs[i]) <= {roots[i].path, roots[i].staged, roots[i].backup};
      assert Foot(rs[j]) <= {roots[j].path, roots[j].staged, roots[j].backup};
    }
  }

  function BackupsOf(roots: seq<Root>): map<Path, Path> {
    if roots == [] then map[]
    else BackupsOf(roots[..|roots| - 1])[roots[|roots| - 1].path := roots[|roots| - 1].backup]
  }

  lemma BackupsLink(roots: seq<Root>, i: nat)
    requires Plan(roots) && i < |roots|
    ensures Link(BackupsOf(roots), roots[i].path, roots[i].backup)
  {
    if i < |roots| - 1 {
      BackupsLink(roots[..|roots| - 1], i);
    }
  }

  function Trio(r: Root): set<Path> {
    {r.path, r.staged, r.backup}
  }

  class Restore {
    const disk: Disk
    const roots: seq<Root>
    const members: seq<Member>
    var records: seq<Record>
    ghost const orig: Nodes

    constructor (disk: Disk, roots: seq<Root>, members: seq<Member>)
      requires Plan(roots)
      ensures this.disk == disk && this.roots == roots && this.members == members
      ensures orig == disk.nodes && records == []
    {
      this.disk, this.roots, this.members := disk, roots, members;
      records := [];
      orig := disk.nodes;
    }

    ghost function Backups(): map<Path, Path> {
      BackupsOf(roots)
    }

    /** Roots are trees or absent, their siblings are free, and every member has one place in an expected root. */
    ghost predicate WellShaped() {
      && (forall i :: 0 <= i < |roots| ==>
            && roots[i].staged !in orig && roots[i].backup !in orig
            && (roots[i].path in orig ==> orig[roots[i].path].Tree?))
      && (forall j :: 0 <= j < |members| ==>
            exists i :: 0 <= i < |roots| && roots[i].scope == members[j].scope && roots[i].expected)
      && (forall j, k :: 0 <= j < k < |members| ==>
            members[j].scope != members[k].scope || members[j].name != members[k].name)
    }

    /** A reason to fail: the system raised since there were `f` faults, or the request is ill-shaped. */
    ghost predicate Excused(f: nat)
      reads disk
    {
      disk.faults > f || !WellShaped()
    }

    ghost predicate Staged(p: Path)
      reads this
    {
      exists i :: 0 <= i < |records| && records[i].stage == Some(p)
    }

    ghost predicate OriginalsSince(h: seq<Nodes>)
      reads disk
    {
      h <= disk.history && forall k :: |h| <= k < |disk.history| ==> Contains(orig, disk.history[k])
    }

    ghost predicate Opened()
      reads this
    {
      && Plan(roots) && |records| <= |roots|
      && (forall i :: 0 <= i < |records| ==>
            && records[i] == RecordOf(roots[i])
            && roots[i].backup !in orig && roots[i].staged !in orig)
    }

    /** Beside the untouched originals, `n` holds only trees at stage paths. */
    ghost predicate Staging(n: Nodes)
      reads this
    {
      && Opened()
      && (forall p :: Staged(p) || Same(orig, n, p))
      && (forall i :: 0 <= i < |records| && records[i].stage.Some? && records[i].stage.value in n ==>
            n[records[i].stage.value].Tree?)
    }

    ghost predicate StagedUpTo(n: Nodes, k: nat)
      requires k <= |members|
      reads this
    {
      && Staging(n) && |records| == |roots|
      && (forall i :: 0 <= i < |roots| && roots[i].expected ==>
            Holds(n, roots[i].staged, Tree(Archived(members[..k], roots[i].scope))))
    }

    lemma StagingContains(n: Nodes)
      requires Staging(n)
      ensures Contains(orig, n)
    {
      forall p | p in orig ensures Holds(n, p, orig[p]) {
        assert Same(orig, n, p);
      }
    }

    method RemoveStage(p: Path) returns (ok: bool)
      requires Staging(disk.nodes) && Staged(p)
      modifies disk
      ensures disk.faults == old(disk.faults) + if ok then 0 else 1
      ensures Staging(disk.nodes) && disk.history == old(disk.history) + [disk.nodes] && Contains(orig, disk.nodes)
      ensures ok <==> p !in disk.nodes
      ensures forall q :: q != p ==> (q in disk.nodes <==> q in old(disk.nodes))
    {
      assert p in disk.nodes ==> disk.nodes[p].Tree?;
      ok := disk.RemoveTree(p);
      assert forall q :: q != p ==> Same(old(disk.nodes), disk.nodes, q);
      StagingContains(disk.nodes);
    }

    /** `left` names the staged trees of the first `k` records that still exist in `n`, and no other of them. */
    ghost predicate Reports(left: set<Path>, n: Nodes, k: nat)
      requires k <= |records|
      reads this
    {
      forall j :: 0 <= j < k && records[j].stage.Some? ==>
        (records[j].stage.value in n <==> records[j].stage.value in left)
    }

    /** A stage path of one of the first `k` records. */
    ghost predicate StagedEarlier(p: Path, k: nat)
      requires k <= |records|
      reads this
    {
      exists j :: 0 <= j < k && records[j].stage == Some(p)
    }

    method RemoveStageOf(i: nat, before: set<Path>) returns (left: set<Path>)
      requires Staging(disk.nodes) && i < |records| && Reports(before, disk.nodes, i)
      requires forall p | p in before :: StagedEarlier(p, i)
      modifies disk
      ensures disk.faults - old(disk.faults) == |left| - |before|
      ensures Staging(disk.nodes) && OriginalsSince(old(disk.history))
      ensures Reports(left, disk.nodes, i + 1)
      ensures forall p | p in left :: StagedEarlier(p, i + 1)
    {
      forall j | 0 <= j < i && records[i].stage.Some? ensures records[j].stage != records[i].stage {
        assert Trio(roots[j]) !! Trio(roots[i]);
      }
      left := before;
      if records[i].stage.Some? {
        var p := records[i].stage.value;
        assert Staged(p);
        var ok := RemoveStage(p);
        assert p !in before;
        left := if ok then left - {p} else left + {p};
      }
    }

    /** Removes every staged tree; `left` names the ones that are still there, each because of one raised error. */
    method RemoveStages() returns (left: set<Path>)
      requires Staging(disk.nodes)
      modifies disk
      ensures |left| == disk.faults - old(disk.faults)
      ensures Staging(disk.nodes) && OriginalsSince(old(disk.history))
      ensures left == disk.nodes.Keys - orig.Keys
      ensures left == {} ==> disk.nodes == orig
    {
      left := {};
      for i := 0 to |records|
        invariant Staging(disk.nodes) && OriginalsSince(old(disk.history))
        invariant Reports(left, disk.nodes, i) && forall p | p in left :: StagedEarlier(p, i)
        invariant |left| == disk.faults - old(disk.faults)
      {
        left := RemoveStageOf(i, left);
      }
      assert forall p | p in left :: StagedEarlier(p, |records|) && Staged(p);
      LeftOver(left);
      if left == {} {
        AllRemoved();
      }
    }

    lemma LeftOver(left: set<Path>)
      requires Staging(disk.nodes) && Reports(left, disk.nodes, |records|) && forall p | p in left :: Staged(p)
      ensures left == disk.nodes.Keys - orig.Keys
    {
      forall p ensures p in left <==> p in disk.nodes && p !in orig {
        if Staged(p) {
          var i :| 0 <= i < |records| && records[i].stage == Some(p);
          assert records[i] == RecordOf(roots[i]);
        } else {
          assert Same(orig, disk.nodes, p);
        }
      }
    }

    lemma AllRemoved()
      requires Staging(disk.nodes) && Reports({}, disk.nodes, |records|)
      ensures disk.nodes == orig
    {
      forall p ensures Same(orig, disk.nodes, p) {
      }
      assert forall p | p in orig :: Same(orig, disk.nodes, p);
      assert forall p | p in disk.nodes :: Same(orig, disk.nodes, p);
    }

    /** Opens the record of root `i` and, when the root is expected, its empty staged tree. */
    method OpenRoot(i: nat) returns (ok: bool)
      requires Staging(disk.nodes) && |records| == i < |roots|
      modifies this`records, disk
      ensures Staging(disk.nodes) && OriginalsSince(old(disk.history))
      ensures forall p | p in old(disk.nodes) :: Holds(disk.nodes, p, old(disk.nodes)[p])
      ensures old(disk.faults) <= disk.faults <= old(disk.faults) + 1
      ensures if ok then disk.faults == old(disk.faults) else Excused(old(disk.faults))
      ensures ok ==> |records| == i + 1
      ensures ok && roots[i].expected ==> Holds(disk.nodes, roots[i].staged, Tree(map[]))
    {
      var stage, backup := roots[i].staged, roots[i].backup;
      if stage in disk.nodes || backup in disk.nodes {
        SiblingsTaken(i);
        return false;
      }
      AddRecord(i);
      ok := true;
      if roots[i].expected {
        assert records[i].stage == Some(stage);
        ok := disk.MakeDirectory(stage, Tree(map[]));
        StagingContains(disk.nodes);
      }
    }

    lemma SiblingsTaken(i: nat)
      requires Staging(disk.nodes) && |records| == i < |roots|
      requires roots[i].staged in disk.nodes || roots[i].backup in disk.nodes
      ensures !WellShaped()
    {
      forall p | p in {roots[i].staged, roots[i].backup} ensures !Staged(p) {
        forall j | 0 <= j < i ensures records[j].stage != Some(p) {
          assert Trio(roots[j]) !! Trio(roots[i]);
        }
      }
      assert Same(orig, disk.nodes, roots[i].staged) && Same(orig, disk.nodes, roots[i].backup);
    }

    method AddRecord(i: nat)
      requires Staging(disk.nodes) && |records| == i < |roots|
      requires roots[i].staged !in disk.nodes && roots[i].backup !in disk.nodes
      modifies this`records
      ensures Staging(disk.nodes) && records == old(records) + [RecordOf(roots[i])]
    {
      var stage, backup := roots[i].staged, roots[i].backup;
      StagingContains(disk.nodes);
      records := records + [RecordOf(roots[i])];
      forall p ensures Staged(p) || Same(orig, disk.nodes, p) {
        if old(Staged(p)) {
          var j :| 0 <= j < i && old(records)[j].stage == Some(p);
          assert records[j].stage == Some(p);
        }
      }
    }

    /** Writes one archive member into the staged tree of its root. */
    method StageMember(j: nat) returns (ok: bool)
      requires j < |members| && StagedUpTo(disk.nodes, j)
      modifies disk
      ensures Staging(disk.nodes) && OriginalsSince(old(disk.history))
      ensures ok ==> StagedUpTo(disk.nodes, j + 1)
      ensures old(disk.faults) <= disk.faults <= old(disk.faults) + 1
      ensures if ok then disk.faults == old(disk.faults) else Excused(old(disk.faults))
    {
      var m := members[j];
      var i := 0;
      while i < |roots| && roots[i].scope != m.scope
        invariant 0 <= i <= |roots|
        invariant forall k :: 0 <= k < i ==> roots[k].scope != m.scope
      {
        i := i + 1;
      }
      if i == |roots| || !roots[i].expected {
        return false;
      }
      assert records[i].stage == Some(roots[i].staged);
      ArchivedFrom(members[..j], m.scope);
      ok := disk.AddMember(roots[i].staged, m.name, m.content);
      StagingContains(disk.nodes);
      assert members[..j + 1][..j] == members[..j];
    }

    method StageAll() returns (ok: bool)
      requires Staging(disk.nodes) && records == []
      modifies this`records, disk
      ensures Staging(disk.nodes) && OriginalsSince(old(disk.history))
      ensures ok ==> StagedUpTo(disk.nodes, |members|)
      ensures old(disk.faults) <= disk.faults <= old(disk.faults) + 1
      ensures if ok then disk.faults == old(disk.faults) else Excused(old(disk.faults))
    {
      ok := true;
      for i := 0 to |roots|
        invariant Staging(disk.nodes) && OriginalsSince(old(disk.history)) && |records| == i
        invariant disk.faults == old(disk.faults)
        invariant forall j :: 0 <= j < i && roots[j].expected ==> Holds(disk.nodes, roots[j].staged, Tree(map[]))
      {
        ok := OpenRoot(i);
        if !ok {
          return;
        }
      }
      for j := 0 to |members|
        invariant OriginalsSince(old(disk.history)) && StagedUpTo(disk.nodes, j)
        invariant disk.faults == old(disk.faults)
      {
        ok := StageMember(j);
        if !ok {
          return;
        }
      }
    }

    /** What the last look asks of one root. */
    predicate Movable(n: Nodes, r: Root) {
      && (r.path in n ==> n[r.path].Tree?)
      && r.backup !in n
      && (r.expected ==> r.staged in n && n[r.staged].Tree?)
      && (!r.expected ==> r.staged !in n)
    }

    /** The last look before any root moves; it changes nothing. */
    method Preflight() returns (ok: bool)
      requires StagedUpTo(disk.nodes, |members|)
      modifies disk`faults
      ensures old(disk.faults) <= disk.faults <= old(disk.faults) + 1
      ensures if ok then disk.faults == old(disk.faults) else Excused(old(disk.faults))
      ensures ok ==> forall i :: 0 <= i < |roots| ==> Movable(disk.nodes, roots[i])
    {
      ok := disk.Attempt();
      for i := 0 to |roots|
        invariant old(disk.faults) <= disk.faults <= old(disk.faults) + 1
        invariant if ok then disk.faults == old(disk.faults) else Excused(old(disk.faults))
        invariant ok ==> forall j :: 0 <= j < i ==> Movable(disk.nodes, roots[j])
      {
        if !Movable(disk.nodes, roots[i]) {
          ImmovableExcused(i);
          ok := false;
        }
      }
    }

    lemma ImmovableExcused(i: nat)
      requires StagedUpTo(disk.nodes, |members|) && i < |roots| && !Movable(disk.nodes, roots[i])
      ensures !WellShaped()
    {
      UnstagedOfRoot(i);
      assert Same(orig, disk.nodes, roots[i].path) && Same(orig, disk.nodes, roots[i].backup);
      assert !roots[i].expected ==> Same(orig, disk.nodes, roots[i].staged);
    }

    /** The old tree of root `i`, if it had one, is at the root or at its backup. */
    ghost predicate Safe(n: Nodes, i: nat)
      requires i < |roots|
    {
      roots[i].path in orig ==>
        Holds(n, roots[i].path, orig[roots[i].path]) || Holds(n, roots[i].backup, orig[roots[i].path])
    }

    ghost predicate Back(n: Nodes, i: nat)
      requires i < |roots|
    {
      Same(orig, n, roots[i].path) && roots[i].backup !in n
    }

    /** Root `i` is back, or `paths` names a tree that exists: the old one, or the new one of a root that had none. */
    ghost predicate BackOrNamed(n: Nodes, i: nat, paths: set<Path>)
      requires i < |roots|
    {
      || Back(n, i)
      || (roots[i].path in orig && roots[i].backup in paths && Holds(n, roots[i].backup, orig[roots[i].path]))
      || (roots[i].path !in orig && roots[i].path in paths && roots[i].path in n)
    }

    predicate StageNamed(n: Nodes, i: nat, paths: set<Path>)
      requires i < |roots|
    {
      roots[i].staged in n ==> roots[i].staged in paths
    }

    /** Record `i`, but for its flags, is the one opened for root `i`. */
    ghost predicate Shaped(rs: seq<Record>, i: nat)
      requires i < |roots| == |rs|
    {
      rs[i].(moved := false, published := false) == RecordOf(roots[i])
    }

    /** Since history `h` only the paths of root `i` have changed from `n`, and its old tree was never lost. */
    ghost predicate SafeSince(i: nat, n: Nodes, h: seq<Nodes>)
      requires i < |roots|
      reads disk
    {
      h <= disk.history && forall k :: |h| <= k < |disk.history| ==>
        SameOutside(n, disk.history[k], Trio(roots[i])) && Safe(disk.history[k], i)
    }

    /** Takes the new tree of root `i` back to its stage and the old one back to the root; only a raised error
        stops it. */
    method PutRootBack(i: nat, ghost base: Nodes) returns (ok: bool)
      requires Plan(roots) && i < |roots| == |records| && Shaped(records, i)
      requires Same(orig, base, roots[i].path) && Movable(base, roots[i])
      requires At(base, disk.nodes, records[i])
      modifies this`records, disk
      ensures disk.faults == old(disk.faults) + if ok then 0 else 1
      ensures |records| == |roots| && records == old(records)[i := records[i]] && Shaped(records, i)
      ensures At(base, disk.nodes, records[i])
      ensures ok ==> !records[i].published && !records[i].moved
      ensures !ok ==> records[i].published || records[i].moved
      ensures SameOutside(old(disk.nodes), disk.nodes, Trio(roots[i]))
      ensures !roots[i].expected ==> Same(old(disk.nodes), disk.nodes, roots[i].staged)
      ensures SafeSince(i, old(disk.nodes), old(disk.history))
    {
      var root, stage, backup := roots[i].path, roots[i].staged, roots[i].backup;
      ok := true;
      if records[i].published && root in disk.nodes {
        ok := stage !in disk.nodes;
        if ok {
          ok := disk.Replace(root, stage);
        }
        if ok {
          records := records[i := records[i].(published := false)];
        }
      }
      if ok && records[i].moved {
        ok := root !in disk.nodes;
        if ok {
          ok := disk.Replace(backup, root);
        }
        if ok {
          records := records[i := records[i].(moved := false)];
        }
      }
    }

    /** The path a failed undo names: the backup if it is there, else the root, else the stage. */
    function CopyOf(n: Nodes, r: Root): set<Path> {
      if r.backup in n then {r.backup}
      else if r.path in n then {r.path}
      else if r.staged in n then {r.staged} else {}
    }

    /** What a rollback that left root `i` like this in `n` names for it. */
    ghost function NamedFor(n: Nodes, i: nat): set<Path>
      requires i < |roots|
    {
      (if Back(n, i) then {} else CopyOf(n, roots[i])) + (if roots[i].staged in n then {roots[i].staged} else {})
    }

    /** The errors it took: one for a root that is not back, one for a staged tree that is still there. */
    ghost function Cost(n: Nodes, i: nat): nat
      requires i < |roots|
    {
      (if Back(n, i) then 0 else 1) + (if roots[i].staged in n then 1 else 0)
    }

    ghost function NamedFrom(n: Nodes, i: nat): set<Path>
      requires i <= |roots|
      decreases |roots| - i
    {
      if i == |roots| then {} else NamedFrom(n, i + 1) + NamedFor(n, i)
    }

    ghost function CostFrom(n: Nodes, i: nat): nat
      requires i <= |roots|
      decreases |roots| - i
    {
      if i == |roots| then 0 else CostFrom(n, i + 1) + Cost(n, i)
    }

    lemma {:induction false} FromSame(n: Nodes, n': Nodes, i: nat)
      requires i <= |roots| && forall j, p | i <= j < |roots| && p in Trio(roots[j]) :: Same(n, n', p)
      ensures NamedFrom(n', i) == NamedFrom(n, i) && CostFrom(n', i) == CostFrom(n, i)
      decreases |roots| - i
    {
      if i < |roots| {
        FromSame(n, n', i + 1);
        assert forall p | p in Trio(roots[i]) :: Same(n, n', p);
        assert roots[i].path in Trio(roots[i]) && roots[i].backup in Trio(roots[i]) && roots[i].staged in Trio(roots[i]);
        assert NamedFor(n', i) == NamedFor(n, i) && Cost(n', i) == Cost(n, i);
      }
    }

    /** Undoes root `i`.  Its staged tree goes too, once the old state is safe without it. */
    method RollBackOne(i: nat, ghost base: Nodes) returns (failed: bool, paths: set<Path>)
      requires Plan(roots) && i < |roots| == |records| && Shaped(records, i)
      requires Same(orig, base, roots[i].path) && Movable(base, roots[i])
      requires At(base, disk.nodes, records[i]) && (!roots[i].expected ==> roots[i].staged !in disk.nodes)
      modifies this`records, disk
      ensures disk.faults - old(disk.faults) == Cost(disk.nodes, i) && (failed <==> disk.faults > old(disk.faults))
      ensures paths == NamedFor(disk.nodes, i)
      ensures |records| == |roots| && records == old(records)[i := records[i]] && Shaped(records, i)
      ensures SameOutside(old(disk.nodes), disk.nodes, Trio(roots[i]))
      ensures BackOrNamed(disk.nodes, i, paths) && StageNamed(disk.nodes, i, paths)
      ensures !failed ==> Back(disk.nodes, i) && roots[i].staged !in disk.nodes
      ensures SafeSince(i, old(disk.nodes), old(disk.history))
    {
      var ok := PutRootBack(i, base);
      ghost var between := disk.nodes;
      failed := !ok;
      paths := if ok then {} else CopyOf(disk.nodes, roots[i]);
      if ok || roots[i].backup in disk.nodes {
        ok := disk.RemoveTree(roots[i].staged);
        if !ok {
          failed := true;
          paths := if roots[i].staged in disk.nodes then paths + {roots[i].staged} else paths;
        }
      }
      OutsideTransitive(old(disk.nodes), between, disk.nodes, Trio(roots[i]));
    }

    /** The disk during a rollback: roots from `i` on are dealt with, the others still as published. */
    ghost predicate Unwinding(rs: seq<Record>, base: Nodes, n: Nodes, i: nat, paths: set<Path>)
      requires |rs| == |roots| && i <= |roots|
    {
      && (forall j :: 0 <= j < |roots| ==> Shaped(rs, j))
      && (forall j :: 0 <= j < i ==>
            At(base, n, rs[j]) && (!roots[j].expected ==> roots[j].staged !in n))
      && (forall j :: i <= j < |roots| ==> BackOrNamed(n, j, paths) && StageNamed(n, j, paths))
      && (forall p :: OfRoot(p) || Same(orig, n, p))
    }

    ghost predicate OfRoot(p: Path) {
      exists j :: 0 <= j < |roots| && p in Trio(roots[j])
    }

    ghost predicate Swapped(base: Nodes) {
      && Plan(roots)
      && (forall j :: 0 <= j < |roots| ==>
            && Same(orig, base, roots[j].path) && roots[j].backup !in base
            && roots[j].backup !in orig && roots[j].staged !in orig)
    }

    lemma KeptBySafe(n: Nodes)
      requires Plan(roots) && forall p :: OfRoot(p) || Same(orig, n, p)
      requires forall j :: 0 <= j < |roots| ==> Safe(n, j) && roots[j].backup !in orig && roots[j].staged !in orig
      ensures Kept(orig, Backups(), n)
    {
      forall p | p in orig
        ensures Holds(n, p, orig[p]) || (p in Backups() && Holds(n, Backups()[p], orig[p]))
      {
        if OfRoot(p) {
          var j :| 0 <= j < |roots| && p in Trio(roots[j]);
          BackupsLink(roots, j);
          assert Safe(n, j);
        } else {
          assert Same(orig, n, p);
        }
      }
    }

    lemma UnwindingSafe(rs: seq<Record>, base: Nodes, n: Nodes, i: nat, paths: set<Path>)
      requires |rs| == |roots| && i <= |roots| && Swapped(base) && Unwinding(rs, base, n, i, paths)
      ensures forall j :: 0 <= j < |roots| ==> Safe(n, j)
    {
      forall j | 0 <= j < |roots| ensures Safe(n, j) {
        if j < i {
          assert At(base, n, rs[j]) && Shaped(rs, j);
        } else {
          assert BackOrNamed(n, j, paths);
        }
      }
    }

    /** A step within the paths of root `i` leaves the old trees of the other roots where they were. */
    lemma KeptStep(n: Nodes, n': Nodes, i: nat)
      requires Plan(roots) && i < |roots| && (forall p :: OfRoot(p) || Same(orig, n, p))
      requires forall j :: 0 <= j < |roots| ==> Safe(n, j) && roots[j].backup !in orig && roots[j].staged !in orig
      requires SameOutside(n, n', Trio(roots[i])) && Safe(n', i)
      ensures (forall p :: OfRoot(p) || Same(orig, n', p)) && Kept(orig, Backups(), n')
    {
      forall p | !OfRoot(p) ensures Same(orig, n', p) {
        assert p !in Trio(roots[i]) && Same(n, n', p);
      }
      forall j | 0 <= j < |roots| ensures Safe(n', j) {
        if j != i {
          assert Trio(roots[j]) !! Trio(roots[i]) && Safe(n, j);
          assert Same(n, n', roots[j].path) && Same(n, n', roots[j].backup);
        }
      }
      KeptBySafe(n');
    }

    lemma UnwindStep(rs: seq<Record>, rs': seq<Record>, base: Nodes, n: Nodes, n': Nodes, i: nat,
                     before: set<Path>, named: set<Path>)
      requires Plan(roots) && i < |roots| == |rs| == |rs'| && Unwinding(rs, base, n, i + 1, before)
      requires rs' == rs[i := rs'[i]] && Shaped(rs', i)
      requires SameOutside(n, n', Trio(roots[i]))
      requires BackOrNamed(n', i, named) && StageNamed(n', i, named)
      ensures Unwinding(rs', base, n', i, before + named)
    {
      var paths := before + named;
      forall j | 0 <= j < |roots| && j != i
        ensures Shaped(rs', j)
        ensures j < i ==> At(base, n', rs'[j]) && (!roots[j].expected ==> roots[j].staged !in n')
        ensures j > i ==> BackOrNamed(n', j, paths) && StageNamed(n', j, paths)
      {
        assert Shaped(rs, j) && Trio(roots[j]) !! Trio(roots[i]);
        assert forall p | p in Trio(roots[j]) :: Same(n, n', p);
        if j > i {
          assert BackOrNamed(n, j, before) && StageNamed(n, j, before);
        }
      }
      forall p | !OfRoot(p) ensures Same(orig, n', p) {
        assert p !in Trio(roots[i]) && Same(n, n', p);
      }
    }

    ghost predicate AllBackFrom(n: Nodes, i: nat) {
      forall j :: i <= j < |roots| ==> Back(n, j) && roots[j].staged !in n
    }

    method RollBackStep(i: nat, ghost base: Nodes, failedBefore: bool, before: set<Path>)
      returns (failed: bool, paths: set<Path>)
      requires i < |roots| == |records| && Swapped(base) && Movable(base, roots[i]) && Unwinding(records, base, disk.nodes, i + 1, before)
      requires !failedBefore ==> AllBackFrom(disk.nodes, i + 1)
      requires before == NamedFrom(disk.nodes, i + 1)
      modifies this`records, disk
      ensures disk.faults - old(disk.faults) == CostFrom(disk.nodes, i) - old(CostFrom(disk.nodes, i + 1))
      ensures disk.faults >= old(disk.faults) && (failed <==> failedBefore || disk.faults > old(disk.faults))
      ensures paths == NamedFrom(disk.nodes, i)
      ensures |records| == |roots| && Unwinding(records, base, disk.nodes, i, paths)
      ensures !failed ==> AllBackFrom(disk.nodes, i)
      ensures KeptSince(orig, Backups(), old(disk.history), disk.history)
    {
      UnwindingSafe(records, base, disk.nodes, i + 1, before);
      var lost, named := RollBackOne(i, base);
      forall k | |old(disk.history)| <= k < |disk.history| ensures Kept(orig, Backups(), disk.history[k]) {
        KeptStep(old(disk.nodes), disk.history[k], i);
      }
      UnwindStep(old(records), records, base, old(disk.nodes), disk.nodes, i, before, named);
      failed, paths := failedBefore || lost, before + named;
      forall j, p | i < j < |roots| && p in Trio(roots[j]) ensures Same(old(disk.nodes), disk.nodes, p) {
        assert Trio(roots[j]) !! Trio(roots[i]);
      }
      FromSame(old(disk.nodes), disk.nodes, i + 1);
      if !failed {
        forall j | i < j < |roots| ensures Back(disk.nodes, j) && roots[j].staged !in disk.nodes {
          assert forall p | p in Trio(roots[j]) :: Same(old(disk.nodes), disk.nodes, p);
        }
      }
    }

    /** Undoes every root, last first, and goes on past roots that cannot be undone.  Every root that is not
        back and every staged tree left over took one raised error, and exactly these are named: so an
        error always has a path, and the backups need not be listed for want of one. */
    method RollBack(ghost base: Nodes) returns (failed: bool, paths: set<Path>)
      requires |records| == |roots| && Swapped(base) && Unwinding(records, base, disk.nodes, |roots|, {})
      requires forall i :: 0 <= i < |roots| ==> Movable(base, roots[i])
      modifies this`records, disk
      ensures CostFrom(disk.nodes, 0) == disk.faults - old(disk.faults) && (failed <==> disk.faults > old(disk.faults))
      ensures paths == NamedFrom(disk.nodes, 0) && (failed ==> paths != {})
      ensures forall j :: 0 <= j < |roots| ==> BackOrNamed(disk.nodes, j, paths) && StageNamed(disk.nodes, j, paths)
      ensures forall p :: OfRoot(p) || Same(orig, disk.nodes, p)
      ensures !failed ==> disk.nodes == orig
      ensures KeptSince(orig, Backups(), old(disk.history), disk.history)
    {
      failed, paths := false, {};
      var i := |roots|;
      while i > 0
        invariant 0 <= i <= |roots| == |records| && Unwinding(records, base, disk.nodes, i, paths)
        invariant !failed ==> AllBackFrom(disk.nodes, i)
        invariant CostFrom(disk.nodes, i) == disk.faults - old(disk.faults) && (failed <==> disk.faults > old(disk.faults))
        invariant paths == NamedFrom(disk.nodes, i)
        invariant KeptSince(orig, Backups(), old(disk.history), disk.history)
      {
        i := i - 1;
        failed, paths := RollBackStep(i, base, failed, paths);
      }
      if !failed {
        AllBack(disk.nodes);
      } else {
        CostsAreNamed(disk.nodes, 0, paths);
      }
    }

    /** A root that took an error is named. */
    lemma CostIsNamed(n: Nodes, i: nat, paths: set<Path>)
      requires i < |roots| && BackOrNamed(n, i, paths) && Cost(n, i) > 0
      ensures NamedFor(n, i) != {}
    {
      var r := roots[i];
      if r.staged in n {
        assert r.staged in NamedFor(n, i);
      } else {
        var p := if r.backup in n then r.backup else r.path;
        assert p in NamedFor(n, i);
      }
    }

    lemma {:induction false} CostsAreNamed(n: Nodes, i: nat, paths: set<Path>)
      requires i <= |roots| && forall j :: 0 <= j < |roots| ==> BackOrNamed(n, j, paths)
      ensures CostFrom(n, i) > 0 ==> NamedFrom(n, i) != {}
      decreases |roots| - i
    {
      if i < |roots| {
        CostsAreNamed(n, i + 1, paths);
        if Cost(n, i) > 0 {
          CostIsNamed(n, i, paths);
        }
      }
    }

    lemma AllBack(n: Nodes)
      requires forall p :: OfRoot(p) || Same(orig, n, p)
      requires AllBackFrom(n, 0)
      requires forall j :: 0 <= j < |roots| ==> roots[j].backup !in orig && roots[j].staged !in orig
      ensures n == orig
    {
      forall p ensures Same(orig, n, p) {
        if OfRoot(p) {
          var j :| 0 <= j < |roots| && p in Trio(roots[j]);
          assert Back(n, j);
        }
      }
      assert forall p | p in orig :: Same(orig, n, p);
      assert forall p | p in n :: Same(orig, n, p);
    }

    /** The swap is done: each root holds exactly what the archive says, and nothing else has changed. */
    ghost predicate Restored(n: Nodes) {
      && (forall i :: 0 <= i < |roots| ==>
            if roots[i].expected then Holds(n, roots[i].path, Tree(Archived(members, roots[i].scope)))
            else roots[i].path !in n)
      && (forall p :: OfRoot(p) || Same(orig, n, p))
    }

    /** `left` is what is in `n` of the backups and staged trees of the first `k` roots. */
    ghost predicate TemporariesIn(n: Nodes, k: nat, left: set<Path>)
      requires k <= |roots|
    {
      forall p :: p in left <==> OfEarlier(p, k) && p in n
    }

    ghost predicate OfEarlier(p: Path, k: nat)
      requires k <= |roots|
    {
      exists i :: 0 <= i < k && p in {roots[i].backup, roots[i].staged}
    }

    ghost predicate TemporariesAreTrees(n: Nodes) {
      forall i :: 0 <= i < |roots| ==>
        && (roots[i].backup in n ==> n[roots[i].backup].Tree?)
        && (roots[i].staged in n ==> n[roots[i].staged].Tree?)
    }

    /** Removes the backups and staged trees of a committed restore; `left` names those still there, each
        because of one raised error. */
    method RemoveTemporaries() returns (left: set<Path>)
      requires Plan(roots) && Restored(disk.nodes) && TemporariesAreTrees(disk.nodes)
      modifies disk
      ensures Restored(disk.nodes) && TemporariesIn(disk.nodes, |roots|, left)
      ensures old(disk.history) <= disk.history
      ensures |left| == disk.faults - old(disk.faults)
    {
      left := {};
      for i := 0 to |roots|
        invariant Restored(disk.nodes) && TemporariesIn(disk.nodes, i, left)
        invariant old(disk.history) <= disk.history
        invariant TemporariesAreTrees(disk.nodes)
        invariant |left| == disk.faults - old(disk.faults)
      {
        left := RemoveTemporariesOf(i, left);
      }
    }

    method RemoveTemporariesOf(i: nat, before: set<Path>) returns (left: set<Path>)
      requires Plan(roots) && i < |roots| && Restored(disk.nodes) && TemporariesAreTrees(disk.nodes)
      requires TemporariesIn(disk.nodes, i, before)
      modifies disk
      ensures Restored(disk.nodes) && TemporariesAreTrees(disk.nodes) && TemporariesIn(disk.nodes, i + 1, left)
      ensures old(disk.history) <= disk.history
      ensures |left| - |before| == disk.faults - old(disk.faults)
    {
      hide Restored, TemporariesAreTrees;
      var one := RemoveTemporary(i, roots[i].backup);
      var two := RemoveTemporary(i, roots[i].staged);
      left := before + one + two;
      TemporariesNext(i, before, one, two, old(disk.nodes), disk.nodes);
      assert |before + one| == |before| + |one| && |left| == |before + one| + |two|;
    }

    lemma TemporariesNext(i: nat, before: set<Path>, one: set<Path>, two: set<Path>, n: Nodes, n': Nodes)
      requires Plan(roots) && i < |roots| && TemporariesIn(n, i, before)
      requires forall q :: q != roots[i].backup && q != roots[i].staged ==> (q in n' <==> q in n)
      requires one == if roots[i].backup in n' then {roots[i].backup} else {}
      requires two == if roots[i].staged in n' then {roots[i].staged} else {}
      ensures TemporariesIn(n', i + 1, before + one + two)
      ensures before !! one && before + one !! two
    {
      hide Plan, OfEarlier;
      EarlierNext(i);
    }

    lemma EarlierNext(i: nat)
      requires Plan(roots) && i < |roots|
      ensures forall p :: OfEarlier(p, i + 1) <==> OfEarlier(p, i) || p == roots[i].backup || p == roots[i].staged
      ensures !OfEarlier(roots[i].backup, i) && !OfEarlier(roots[i].staged, i) && roots[i].backup != roots[i].staged
    {
      forall j | 0 <= j < i ensures Trio(roots[j]) !! Trio(roots[i]) {
      }
      forall p ensures OfEarlier(p, i + 1) <==> OfEarlier(p, i) || p == roots[i].backup || p == roots[i].staged {
        assert p == roots[i].backup || p == roots[i].staged ==> OfEarlier(p, i + 1);
      }
    }

    method RemoveTemporary(i: nat, p: Path) returns (left: set<Path>)
      requires Plan(roots) && i < |roots| && p in {roots[i].backup, roots[i].staged}
      requires Restored(disk.nodes) && TemporariesAreTrees(disk.nodes)
      modifies disk
      ensures Restored(disk.nodes) && TemporariesAreTrees(disk.nodes)
      ensures forall q :: q != p ==> (q in disk.nodes <==> q in old(disk.nodes))
      ensures left == if p in disk.nodes then {p} else {}
      ensures old(disk.history) <= disk.history
      ensures disk.faults == old(disk.faults) + |left|
    {
      var ok := disk.RemoveTree(p);
      left := if !ok && p in disk.nodes then {p} else {};
      assert OfRoot(p) by { assert p in Trio(roots[i]); }
      assert forall q :: q != p ==> Same(old(disk.nodes), disk.nodes, q);
      forall j | 0 <= j < |roots| ensures roots[j].path != p {
        assert j != i ==> Trio(roots[j]) !! Trio(roots[i]);
      }
    }

    lemma StagedIsReady(base: Nodes)
      requires StagedUpTo(base, |members|)
      ensures Swapped(base) && Contains(orig, base) && Apart(records) && Linked(orig, Backups(), records)
      ensures forall i :: 0 <= i < |records| ==> records[i].stage.Some? ==> records[i].stage.value in base
      ensures forall p :: OfRoot(p) || Same(orig, base, p)
    {
      PlanApart(roots, records);
      StagingContains(base);
      forall i | 0 <= i < |roots|
        ensures Link(Backups(), roots[i].path, roots[i].backup)
        ensures Same(orig, base, roots[i].path) && Same(orig, base, roots[i].backup)
        ensures !roots[i].expected ==> Same(orig, base, roots[i].staged)
      {
        BackupsLink(roots, i);
        UnstagedOfRoot(i);
      }
      forall p | Staged(p) ensures OfRoot(p) {
        var i :| 0 <= i < |records| && records[i].stage == Some(p);
        assert p in Trio(roots[i]);
      }
    }

    lemma UnstagedOfRoot(i: nat)
      requires Opened() && |records| == |roots| && i < |roots|
      ensures !Staged(roots[i].path) && !Staged(roots[i].backup) && (!roots[i].expected ==> !Staged(roots[i].staged))
    {
      forall j | 0 <= j < |roots| && j != i ensures Trio(roots[j]) !! Trio(roots[i]) {
      }
    }

    /** Where publishing ended, whether it went through or stopped part of the way. */
    lemma PublishedState(base: Nodes, n: Nodes, rs: seq<Record>)
      requires StagedUpTo(base, |members|) && SameFeet(records, rs) && AllAt(base, n, rs)
      ensures Swapped(base) && Unwinding(rs, base, n, |roots|, {})
    {
      StagedIsReady(base);
      forall p | Touched(rs, p) ensures OfRoot(p) {
        var i :| 0 <= i < |rs| && p in Foot(rs[i]);
        assert p in Trio(roots[i]);
      }
      forall p | !OfRoot(p) ensures Same(orig, n, p) {
        assert Same(base, n, p) && Same(orig, base, p);
      }
      forall i | 0 <= i < |roots|
        ensures Shaped(rs, i) && (!roots[i].expected ==> roots[i].staged !in n)
      {
        if !roots[i].expected {
          UnexpectedStage(base, n, rs, i);
        }
      }
      assert forall i :: 0 <= i < |roots| ==> At(base, n, rs[i]);
    }

    lemma PublishedIsRestored(base: Nodes, n: Nodes, rs: seq<Record>)
      requires StagedUpTo(base, |members|) && |rs| == |roots| && Swapped(base) && Unwinding(rs, base, n, |roots|, {})
      requires forall i :: 0 <= i < |rs| ==> Done(base, rs[i])
      ensures Restored(n)
    {
      assert members[..|members|] == members;
      forall i | 0 <= i < |roots|
        ensures if roots[i].expected then Holds(n, roots[i].path, Tree(Archived(members, roots[i].scope)))
                else roots[i].path !in n
      {
        assert Shaped(rs, i) && At(base, n, rs[i]) && Done(base, rs[i]);
        if roots[i].expected {
          assert Holds(base, roots[i].staged, Tree(Archived(members[..|members|], roots[i].scope)));
        }
      }
    }

    lemma UnexpectedStage(base: Nodes, n: Nodes, rs: seq<Record>, i: nat)
      requires StagedUpTo(base, |members|) && SameFeet(records, rs) && AllAt(base, n, rs)
      requires i < |roots| && !roots[i].expected
      ensures roots[i].staged !in n
    {
      UnstagedOfRoot(i);
      assert Same(orig, base, roots[i].staged);
      forall j | 0 <= j < |rs| ensures roots[i].staged !in Foot(rs[j]) {
        if j != i {
          assert Trio(roots[j]) !! Trio(roots[i]) && Foot(rs[j]) <= Trio(roots[j]);
        }
      }
      assert !Touched(rs, roots[i].staged);
      assert Same(base, n, roots[i].staged);
    }

    /** Swaps in the archived state of every root.

        `commit` is the length of the history at which the last root was swapped;
        up to it no root's old tree is ever lost.  `prepared` and `published` say how far it came and
        `stopped` counts the errors until then: which outcome it is depends on those alone and on whether
        an error was raised afterwards. */
    method Run() returns (outcome: Outcome, ghost commit: nat, ghost prepared: bool, ghost published: bool, ghost stopped: nat)
      requires Plan(roots) && records == [] && orig == disk.nodes
      modifies this, disk
      ensures outcome.Committed? ==> Restored(disk.nodes) && TemporariesIn(disk.nodes, |roots|, {})
      ensures outcome.CommittedUncleaned? ==> Restored(disk.nodes) && TemporariesIn(disk.nodes, |roots|, outcome.paths)
      ensures outcome.Failed? ==> disk.nodes == orig
      ensures outcome.StagingUncleaned? ==> Contains(orig, disk.nodes) && outcome.paths == disk.nodes.Keys - orig.Keys != {}
      ensures !outcome.Committed? ==> Excused(old(disk.faults))
      ensures outcome.RecoveryNeeded? ==> forall i :: 0 <= i < |roots| ==>
                BackOrNamed(disk.nodes, i, outcome.paths) && StageNamed(disk.nodes, i, outcome.paths)
      ensures old(disk.faults) <= stopped <= old(disk.faults) + 1 && stopped <= disk.faults && (published ==> prepared)
      ensures if published then stopped == old(disk.faults) else stopped > old(disk.faults) || (!prepared && !WellShaped())
      ensures outcome.Committed? <==> published && disk.faults == stopped
      ensures outcome.CommittedUncleaned? <==> published && disk.faults > stopped
      ensures outcome.Failed? <==> !published && disk.faults == stopped
      ensures outcome.StagingUncleaned? <==> !prepared && disk.faults > stopped
      ensures outcome.RecoveryNeeded? <==> prepared && !published && disk.faults > stopped
      ensures outcome.StagingUncleaned? || outcome.CommittedUncleaned? ==> |outcome.paths| == disk.faults - stopped
      ensures outcome.RecoveryNeeded? ==>
                outcome.paths == NamedFrom(disk.nodes, 0) != {} && CostFrom(disk.nodes, 0) == disk.faults - stopped
      ensures old(|disk.history|) <= commit <= |disk.history| && old(disk.history) <= disk.history
      ensures forall k :: old(|disk.history|) <= k < commit ==> Kept(orig, Backups(), disk.history[k])
      ensures !outcome.Committed? && !outcome.CommittedUncleaned? ==> commit == |disk.history|
    {
      hide Unwinding, Swapped, Restored, BackOrNamed, StageNamed, TemporariesIn, StagedUpTo, Movable, NamedFrom, CostFrom, Plan;
      var ok := Prepare();
      prepared, published, stopped := ok, false, disk.faults;
      if !ok {
        var left := RemoveStages();
        StagingContains(disk.nodes);
        commit := |disk.history|;
        outcome := if left == {} then Failed else StagingUncleaned(left);
        return;
      }
      ghost var base := disk.nodes;
      ok := Publish();
      commit, published, stopped := |disk.history|, ok, disk.faults;
      if ok {
        var left := RemoveTemporaries();
        outcome := if left == {} then Committed else CommittedUncleaned(left);
      } else {
        var failed, paths := RollBack(base);
        outcome := if failed then RecoveryNeeded(paths) else Failed;
        commit := |disk.history|;
      }
    }

    method Prepare() returns (ok: bool)
      requires Staging(disk.nodes) && records == []
      modifies this`records, disk
      ensures Staging(disk.nodes) && OriginalsSince(old(disk.history))
      ensures ok ==> StagedUpTo(disk.nodes, |members|) && forall i :: 0 <= i < |roots| ==> Movable(disk.nodes, roots[i])
      ensures old(disk.faults) <= disk.faults <= old(disk.faults) + 1
      ensures if ok then disk.faults == old(disk.faults) else Excused(old(disk.faults))
    {
      ok := StageAll();
      if ok {
        ok := Preflight();
      }
    }

    method Publish() returns (ok: bool)
      requires StagedUpTo(disk.nodes, |members|)
      requires forall i :: 0 <= i < |roots| ==> Movable(disk.nodes, roots[i])
      modifies this`records, disk
      ensures |records| == |roots| && Swapped(old(disk.nodes))
      ensures Unwinding(records, old(disk.nodes), disk.nodes, |roots|, {})
      ensures ok ==> Restored(disk.nodes) && TemporariesAreTrees(disk.nodes)
      ensures disk.faults == old(disk.faults) + if ok then 0 else 1
      ensures KeptSince(orig, Backups(), old(disk.history), disk.history)
    {
      StagedIsReady(disk.nodes);
      var rs: seq<Record>;
      ok, rs := PublishAll(disk, records, orig, Backups());
      PublishedState(old(disk.nodes), disk.nodes, rs);
      if ok {
        PublishedIsRestored(old(disk.nodes), disk.nodes, rs);
        forall i | 0 <= i < |roots|
          ensures roots[i].backup in disk.nodes ==> disk.nodes[roots[i].backup].Tree?
          ensures roots[i].staged !in disk.nodes
        {
          assert Shaped(rs, i) && At(old(disk.nodes), disk.nodes, rs[i]) && Movable(old(disk.nodes), roots[i]);
          assert !roots[i].expected ==> roots[i].staged !in disk.nodes;
        }
      }
      records := rs;
    }
  }
}
