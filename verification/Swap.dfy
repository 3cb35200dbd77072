/** Swapping new content into place with the old content kept at a backup.

    Both restores work through a list of records.  A record names a target, the
    staged content that replaces it (none when the target is only removed) and
    the backup its old content moves to, and has two flags that follow the disk. */
module Swap {
  import opened FileSystem

  datatype Record = Record(target: Path, stage: Option<Path>, backup: Path, moved: bool, published: bool)

  function Foot(r: Record): set<Path> {
    {r.target, r.backup} + if r.stage.Some? then {r.stage.value} else {}
  }

  ghost predicate Apart(rs: seq<Record>) {
    && (forall i, j :: 0 <= i < j < |rs| ==> Foot(rs[i]) !! Foot(rs[j]))
    && (forall i :: 0 <= i < |rs| ==> rs[i].target != rs[i].backup)
    && (forall i :: 0 <= i < |rs| && rs[i].stage.Some? ==>
          rs[i].stage.value != rs[i].target && rs[i].stage.value != rs[i].backup)
  }

  /** What the disk `n` holds for one record, given its flags and the disk `base` after staging. */
  predicate At(base: Nodes, n: Nodes, r: Record) {
    && (if r.published then
          && r.stage.Some? && r.stage.value in base && r.stage.value !in n
          && Holds(n, r.target, base[r.stage.value])
          && (r.target in base ==> r.moved)
        else
          && (r.stage.Some? ==> Same(base, n, r.stage.value))
          && (if r.moved then r.target !in n else Same(base, n, r.target)))
    && (if r.moved then r.target in base && !base[r.target].Directory? && Holds(n, r.backup, base[r.target])
        else r.backup in n ==> Same(base, n, r.backup))
  }

  ghost predicate SameOutside(a: Nodes, b: Nodes, s: set<Path>) {
    forall p :: p !in s ==> Same(a, b, p)
  }

  lemma Stripped(a: Nodes, n: Nodes, s: set<Path>)
    requires SameOutside(a, n, s) && s !! a.Keys
    ensures n - s == a
  {
    forall p ensures Same(n - s, a, p) {
      assert p !in s ==> Same(a, n, p);
    }
    assert forall p | p in a :: Same(n - s, a, p);
    assert forall p | p in n - s :: Same(n - s, a, p);
  }

  lemma OutsideTransitive(a: Nodes, b: Nodes, c: Nodes, s: set<Path>)
    requires SameOutside(a, b, s) && SameOutside(b, c, s)
    ensures SameOutside(a, c, s)
  {
    forall p | p !in s ensures Same(a, c, p) {
      assert Same(a, b, p) && Same(b, c, p);
    }
  }

  predicate Touched(rs: seq<Record>, p: Path) {
    exists i :: 0 <= i < |rs| && p in Foot(rs[i])
  }

  ghost predicate AllAt(base: Nodes, n: Nodes, rs: seq<Record>) {
    && (forall i :: 0 <= i < |rs| ==> At(base, n, rs[i]))
    && (forall p :: !Touched(rs, p) ==> Same(base, n, p))
  }

  ghost predicate SameFeet(rs: seq<Record>, rs': seq<Record>) {
    |rs| == |rs'| && forall i :: 0 <= i < |rs| ==>
      rs[i].target == rs'[i].target && rs[i].stage == rs'[i].stage && rs[i].backup == rs'[i].backup
  }

  predicate Link(backups: map<Path, Path>, target: Path, backup: Path) {
    target in backups && backups[target] == backup
  }

  /** No original is lost: each is at its own path or at the backup of the record that moved it. */
  ghost predicate Kept(orig: Nodes, backups: map<Path, Path>, n: Nodes) {
    forall p | p in orig ::
      Holds(n, p, orig[p]) || (p in backups && Holds(n, backups[p], orig[p]))
  }

  lemma TouchedByFeet(rs: seq<Record>, rs': seq<Record>)
    requires SameFeet(rs, rs')
    ensures forall p :: Touched(rs, p) <==> Touched(rs', p)
  {
    forall p ensures Touched(rs, p) <==> Touched(rs', p) {
      if Touched(rs, p) {
        var i :| 0 <= i < |rs| && p in Foot(rs[i]);
        assert p in Foot(rs'[i]);
      }
      if Touched(rs', p) {
        var i :| 0 <= i < |rs'| && p in Foot(rs'[i]);
        assert p in Foot(rs[i]);
      }
    }
  }

  /** A step inside the footprint of record `i` re-establishes the whole picture with new flags for `i`. */
  lemma StepAt(base: Nodes, n: Nodes, n': Nodes, rs: seq<Record>, i: nat, r: Record)
    requires i < |rs| && Apart(rs) && AllAt(base, n, rs)
    requires r.target == rs[i].target && r.stage == rs[i].stage && r.backup == rs[i].backup
    requires forall p :: p !in Foot(r) ==> Same(n, n', p)
    requires At(base, n', r)
    ensures AllAt(base, n', rs[i := r]) && Apart(rs[i := r]) && SameFeet(rs, rs[i := r])
  {
    var rs' := rs[i := r];
    TouchedByFeet(rs, rs');
    forall j | 0 <= j < |rs'| ensures At(base, n', rs'[j]) {
      if j != i {
        assert Foot(rs[j]) !! Foot(rs[i]);
        assert At(base, n, rs[j]);
        assert forall p :: p in Foot(rs[j]) ==> Same(n, n', p);
      }
    }
    forall p | !Touched(rs', p) ensures Same(base, n', p) {
      assert p !in Foot(rs'[i]);
    }
  }

  lemma KeptByRecords(orig: Nodes, backups: map<Path, Path>, base: Nodes, n: Nodes, rs: seq<Record>)
    requires Contains(orig, base) && AllAt(base, n, rs)
    requires forall i :: 0 <= i < |rs| ==> Link(backups, rs[i].target, rs[i].backup)
    requires forall i :: 0 <= i < |rs| ==> rs[i].backup !in orig && (rs[i].stage.Some? ==> rs[i].stage.value !in orig)
    ensures Kept(orig, backups, n)
  {
    forall p | p in orig ensures Holds(n, p, orig[p]) || (p in backups && Holds(n, backups[p], orig[p])) {
      if Touched(rs, p) {
        var i :| 0 <= i < |rs| && p in Foot(rs[i]);
        assert p == rs[i].target && At(base, n, rs[i]) && Link(backups, p, rs[i].backup);
      } else {
        assert Same(base, n, p);
      }
    }
  }

  /** With every flag down again, the disk is the one staging left, but for scratch files. */
  lemma AllUndone(base: Nodes, n: Nodes, rs: seq<Record>, scratch: set<Path>)
    requires AllAt(base, n, rs)
    requires forall i :: 0 <= i < |rs| ==> !rs[i].moved && !rs[i].published && rs[i].backup in scratch
    ensures SameOutside(base, n, scratch)
  {
    forall p | p !in scratch ensures Same(base, n, p) {
      if Touched(rs, p) {
        var i :| 0 <= i < |rs| && p in Foot(rs[i]);
        assert At(base, n, rs[i]);
      }
    }
  }

  ghost predicate Linked(orig: Nodes, backups: map<Path, Path>, rs: seq<Record>) {
    forall i :: 0 <= i < |rs| ==>
      && Link(backups, rs[i].target, rs[i].backup)
      && rs[i].backup !in orig && (rs[i].stage.Some? ==> rs[i].stage.value !in orig)
  }

  /** The history has only grown since `h`, and no disk in the new part has lost an original. */
  ghost predicate KeptSince(orig: Nodes, backups: map<Path, Path>, h: seq<Nodes>, history: seq<Nodes>) {
    h <= history && forall k :: |h| <= k < |history| ==> Kept(orig, backups, history[k])
  }

  /** Whether record `r` over disk `base` has been carried out in full. */
  predicate Done(base: Nodes, r: Record) {
    (r.moved <==> r.target in base) && (r.published <==> r.stage.Some?)
  }

  /** Nothing but a raised error can stop record `r` from being carried out on disk `n`. */
  predicate Unobstructed(n: Nodes, r: Record) {
    && (r.target in n ==> Replaceable(n, r.target, r.backup))
    && (r.stage.Some? ==> r.stage.value in n && !n[r.stage.value].Directory? && r.stage.value != r.target)
  }

  method MoveAway(disk: Disk, rs: seq<Record>, i: nat, ghost base: Nodes)
    returns (ok: bool, out: seq<Record>)
    requires i < |rs| && Apart(rs) && AllAt(base, disk.nodes, rs)
    requires !rs[i].moved && !rs[i].published && rs[i].target in disk.nodes
    modifies disk
    ensures Apart(out) && AllAt(base, disk.nodes, out) && SameFeet(rs, out)
    ensures out == rs[i := rs[i].(moved := ok)]
    ensures forall p :: p !in Foot(rs[i]) ==> Same(old(disk.nodes), disk.nodes, p)
    ensures rs[i].stage.Some? ==> Same(old(disk.nodes), disk.nodes, rs[i].stage.value)
    ensures disk.history == old(disk.history) + [disk.nodes]
    ensures old(disk.faults) <= disk.faults <= old(disk.faults) + 1 && (ok ==> disk.faults == old(disk.faults))
    ensures !ok ==> disk.faults > old(disk.faults) || !Replaceable(old(disk.nodes), rs[i].target, rs[i].backup)
  {
    ok := disk.Replace(rs[i].target, rs[i].backup);
    out := rs[i := rs[i].(moved := ok)];
    if ok {
      StepAt(base, old(disk.nodes), disk.nodes, rs, i, rs[i].(moved := true));
    } else {
      assert out == rs;
    }
  }

  method PutInPlace(disk: Disk, rs: seq<Record>, i: nat, ghost base: Nodes)
    returns (ok: bool, out: seq<Record>)
    requires i < |rs| && Apart(rs) && AllAt(base, disk.nodes, rs)
    requires rs[i].stage.Some? && !rs[i].published && rs[i].stage.value in base
    requires rs[i].target in base ==> rs[i].moved
    modifies disk
    ensures Apart(out) && AllAt(base, disk.nodes, out) && SameFeet(rs, out)
    ensures out == rs[i := rs[i].(published := ok)]
    ensures forall p :: p !in Foot(rs[i]) ==> Same(old(disk.nodes), disk.nodes, p)
    ensures disk.history == old(disk.history) + [disk.nodes]
    ensures old(disk.faults) <= disk.faults <= old(disk.faults) + 1 && (ok ==> disk.faults == old(disk.faults))
    ensures !ok ==> disk.faults > old(disk.faults) || !Replaceable(old(disk.nodes), rs[i].stage.value, rs[i].target)
  {
    ok := disk.Replace(rs[i].stage.value, rs[i].target);
    out := rs[i := rs[i].(published := ok)];
    if ok {
      StepAt(base, old(disk.nodes), disk.nodes, rs, i, rs[i].(published := true));
    } else {
      assert out == rs;
    }
  }

  /** Moves the old content of record `i` away and its staged content into place. */
  method PublishOne(disk: Disk, rs: seq<Record>, i: nat,
                    ghost orig: Nodes, ghost backups: map<Path, Path>, ghost base: Nodes)
    returns (ok: bool, out: seq<Record>)
    requires i < |rs| && Apart(rs) && AllAt(base, disk.nodes, rs)
    requires Contains(orig, base) && Linked(orig, backups, rs)
    requires !rs[i].moved && !rs[i].published && (rs[i].stage.Some? ==> rs[i].stage.value in base)
    modifies disk
    ensures Apart(out) && AllAt(base, disk.nodes, out) && SameFeet(rs, out) && out == rs[i := out[i]]
    ensures KeptSince(orig, backups, old(disk.history), disk.history)
    ensures forall p :: p !in Foot(rs[i]) ==> Same(old(disk.nodes), disk.nodes, p)
    ensures old(disk.faults) <= disk.faults <= old(disk.faults) + 1 && (ok ==> disk.faults == old(disk.faults))
    ensures ok ==> Done(base, out[i])
    ensures !ok ==> disk.faults > old(disk.faults) || !Unobstructed(old(disk.nodes), rs[i])
  {
    ok, out := true, rs;
    if rs[i].target in disk.nodes {
      ok, out := MoveAway(disk, rs, i, base);
      KeptByRecords(orig, backups, base, disk.nodes, out);
    }
    ghost var between := disk.nodes;
    if ok && rs[i].stage.Some? {
      assert Foot(out[i]) == Foot(rs[i]);
      ok, out := PutInPlace(disk, out, i, base);
      KeptByRecords(orig, backups, base, disk.nodes, out);
    }
    OutsideTransitive(old(disk.nodes), between, disk.nodes, Foot(rs[i]));
  }

  /** Publishes every record, stopping at the first step that raises. */
  method PublishAll(disk: Disk, rs: seq<Record>, ghost orig: Nodes, ghost backups: map<Path, Path>)
    returns (ok: bool, out: seq<Record>)
    requires Apart(rs) && Contains(orig, disk.nodes) && Linked(orig, backups, rs)
    requires forall i :: 0 <= i < |rs| ==>
               !rs[i].moved && !rs[i].published && (rs[i].stage.Some? ==> rs[i].stage.value in disk.nodes)
    modifies disk
    ensures Apart(out) && AllAt(old(disk.nodes), disk.nodes, out) && SameFeet(rs, out)
    ensures KeptSince(orig, backups, old(disk.history), disk.history)
    ensures ok ==> forall i :: 0 <= i < |out| ==> Done(old(disk.nodes), out[i])
    ensures old(disk.faults) <= disk.faults <= old(disk.faults) + 1 && (ok ==> disk.faults == old(disk.faults))
    ensures !ok ==> disk.faults > old(disk.faults) || exists i :: 0 <= i < |rs| && !Unobstructed(old(disk.nodes), rs[i])
  {
    ok, out := true, rs;
    ghost var base := disk.nodes;
    assert AllAt(base, disk.nodes, rs);
    for i := 0 to |rs|
      invariant |out| == |rs| && SameFeet(rs, out) && Apart(out) && AllAt(base, disk.nodes, out)
      invariant KeptSince(orig, backups, old(disk.history), disk.history)
      invariant forall j :: i <= j < |rs| ==> out[j] == rs[j] && forall p | p in Foot(rs[j]) :: Same(base, disk.nodes, p)
      invariant forall j :: 0 <= j < i ==> Done(base, out[j])
      invariant disk.faults == old(disk.faults)
    {
      ghost var before := disk.nodes;
      assert forall p | p in Foot(rs[i]) :: Same(base, before, p);
      ok, out := PublishOne(disk, out, i, orig, backups, base);
      if !ok {
        return;
      }
      forall j, p | i < j < |rs| && p in Foot(rs[j]) ensures Same(base, disk.nodes, p) {
        assert Foot(rs[j]) !! Foot(rs[i]) && Same(base, before, p) && Same(before, disk.nodes, p);
      }
    }
  }
}
