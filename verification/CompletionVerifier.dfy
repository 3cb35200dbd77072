/** Deciding from repeated reads of the editor's diagnostics whether a write left it as it was. */
module CompletionVerifier {
  import opened FileSystem

  datatype Severity = Error | Warning

  /** The id is a hash of everything the diagnostic says, taken as injective. */
  datatype Diagnostic = Diagnostic(id: string, severity: Severity)

  datatype Process = Process(id: int, startedAt: string, executable: string)

  datatype Snapshot = Snapshot(
    readable: bool, compiling: bool, complete: bool, truncated: bool,
    capturedAt: string, source: string, project: string, process: Process, diagnostics: seq<Diagnostic>)

  datatype Baseline = Baseline(
    project: string, process: Process, ids: seq<string>, capturedAt: string, source: string, complete: bool)

  datatype Profile = SceneWrite | AssetWrite | Refresh

  /** What the write itself reported. */
  datatype Reported = Reported(ok: bool, completionKnown: bool, done: bool)

  /** One turn of the poll: the time left before the read, what was read, and the time left after it. */
  datatype Poll = Poll(before: real, snapshot: Snapshot, after: real)

  datatype Code = Passed | Unstable | ProjectChanged | ProcessChanged | Regression | BaselineUnavailable

  predicate Hexadecimal(c: char) {
    '0' <= c <= '9' || 'a' <= c <= 'f' || 'A' <= c <= 'F'
  }

  predicate IsDigest(s: string) {
    |s| == 64 && forall i :: 0 <= i < |s| ==> Hexadecimal(s[i])
  }

  predicate Identified(s: Snapshot) {
    IsDigest(s.project) && s.process.id > 0 && s.process.startedAt != "" && IsDigest(s.process.executable)
  }

  /** A read of an editor that was not compiling, of all diagnostics there were. */
  predicate AtRest(s: Snapshot) {
    && s.readable && !s.compiling && s.complete && !s.truncated
    && |s.project| == 64 && s.process.id > 0 && s.process.startedAt != "" && |s.process.executable| == 64
  }

  lemma SameReads(s: Snapshot, t: Snapshot)
    requires Good(s) && Good(t) && DigestOf(s) == DigestOf(t)
    ensures AtRest(s) && AtRest(t) && s.project == t.project && s.process == t.process && s.source == t.source
    ensures |s.diagnostics| == |t.diagnostics|
    ensures forall i | 0 <= i < |s.diagnostics| :: s.diagnostics[i].id == t.diagnostics[i].id
  {
    assert |Ids(s)| == |s.diagnostics| && |Ids(t)| == |t.diagnostics|;
    forall i | 0 <= i < |s.diagnostics| ensures s.diagnostics[i].id == t.diagnostics[i].id {
      assert Ids(s)[i] == Ids(t)[i];
    }
  }

  predicate Good(s: Snapshot) {
    s.readable && !s.compiling && s.complete && !s.truncated && Identified(s)
  }

  function Ids(s: Snapshot): seq<string> {
    seq(|s.diagnostics|, i requires 0 <= i < |s.diagnostics| => s.diagnostics[i].id)
  }

  /** What the stable digest hashes. */
  datatype Digest = Digest(capturedAt: string, source: string, ids: seq<string>, project: string, process: Process)

  function DigestOf(s: Snapshot): Digest {
    Digest(s.capturedAt, s.source, Ids(s), s.project, s.process)
  }

  predicate Pipeline(source: string, complete: bool, capturedAt: string) {
    source == "compilation_pipeline" && complete && capturedAt != ""
  }

  predicate Console(source: string, complete: bool) {
    source == "console_log" && complete
  }

  /** No diagnostic of this severity is one the baseline did not have. */
  predicate NoNew(s: Snapshot, baseline: Baseline, severity: Severity) {
    forall d | d in s.diagnostics && d.severity == severity :: d.id in baseline.ids
  }

  predicate Without(s: Snapshot, severity: Severity) {
    forall d | d in s.diagnostics :: d.severity != severity
  }

  /** The verdict on a stable snapshot. */
  function Judge(profile: Profile, baseline: Baseline, s: Snapshot, reported: Reported): Code {
    if baseline.project != s.project then ProjectChanged
    else if baseline.process != s.process then ProcessChanged
    else if !profile.AssetWrite? && Console(baseline.source, baseline.complete) && Console(s.source, s.complete) then
      if NoNew(s, baseline, Error) && NoNew(s, baseline, Warning) then Passed else Regression
    else if !Pipeline(baseline.source, baseline.complete, baseline.capturedAt)
            || !Pipeline(s.source, s.complete, s.capturedAt) then
      var current := Pipeline(s.source, s.complete, s.capturedAt) && Without(s, Error);
      if current && (Without(s, Warning) || (profile.Refresh? && reported.ok && reported.completionKnown && reported.done))
      then Passed else BaselineUnavailable
    else if NoNew(s, baseline, Error) && NoNew(s, baseline, Warning) then Passed else Regression
  }

  /** Two reads in a row are readable, complete and identical. */
  predicate StableAt(polls: seq<Poll>, i: nat)
    requires 0 < i < |polls|
  {
    Good(polls[i - 1].snapshot) && Good(polls[i].snapshot) && DigestOf(polls[i - 1].snapshot) == DigestOf(polls[i].snapshot)
  }

  /** The poll goes on past turn `i`: there was time to read, and there is time to sleep. */
  predicate GoesOn(p: Poll) {
    p.before >= 1.0 && p.after > 0.0
  }

  /** Polls until two reads agree or the time is up, and judges the last read. */
  method Finalize(profile: Profile, baseline: Baseline, reported: Reported, polls: seq<Poll>) returns (code: Code, read: nat)
    ensures read <= |polls|
    // the first pair that agrees ends the poll, and only a pair that agrees is judged
    ensures forall i | 0 < i < read - 1 :: !StableAt(polls, i)
    ensures forall i | 0 <= i < read - 1 :: GoesOn(polls[i])
    ensures code != Unstable <==> read >= 2 && StableAt(polls, read - 1)
    ensures code == Unstable && read < |polls| ==> polls[read].before < 1.0 || (read > 0 && polls[read - 1].after <= 0.0)
    ensures code != Unstable ==> code == Judge(profile, baseline, polls[read - 1].snapshot, reported)
    // what is judged was read twice, with the editor at rest and everything read
    ensures code != Unstable ==>
              var s, t := polls[read - 1].snapshot, polls[read - 2].snapshot;
              && AtRest(s) && AtRest(t) && s.project == t.project && s.process == t.process && s.source == t.source
              && |s.diagnostics| == |t.diagnostics|
              && forall i | 0 <= i < |s.diagnostics| :: s.diagnostics[i].id == t.diagnostics[i].id
    // so a pass speaks for the last two reads and the baseline
    ensures code == Passed ==>
              var s := polls[read - 1].snapshot;
              && s.project == baseline.project && s.process == baseline.process
              && forall d | d in s.diagnostics && d.severity == Error :: d.id in baseline.ids
  {
    var stable: Option<Digest> := None;
    var count := 0;
    read := 0;
    while read < |polls| && polls[read].before >= 1.0
      invariant read <= |polls| && 0 <= count <= 1
      invariant count == 1 <==> read > 0 && Good(polls[read - 1].snapshot)
      invariant count == 1 ==> stable == Some(DigestOf(polls[read - 1].snapshot))
      invariant count == 0 ==> stable.None?
      invariant forall i | 0 < i < read :: !StableAt(polls, i)
      invariant forall i | 0 <= i < read :: GoesOn(polls[i])
      decreases |polls| - read
    {
      var s := polls[read].snapshot;
      read := read + 1;
      if Good(s) {
        if stable == Some(DigestOf(s)) {
          count := count + 1;
        } else {
          stable, count := Some(DigestOf(s)), 1;
        }
        if count >= 2 {
          code := Judge(profile, baseline, s, reported);
          SameReads(s, polls[read - 2].snapshot);
          if code == Passed {
            PassedIsSound(profile, baseline, s, reported);
          }
          return;
        }
      } else {
        stable, count := None, 0;
      }
      if polls[read - 1].after <= 0.0 {
        code := Unstable;
        return;
      }
    }
    code := Unstable;
  }

  /** A verdict of passed: the editor and the project are those of the baseline, and every error that is
      still reported was there before the write. */
  lemma PassedIsSound(profile: Profile, baseline: Baseline, s: Snapshot, reported: Reported)
    requires Judge(profile, baseline, s, reported) == Passed
    ensures s.project == baseline.project && s.process == baseline.process
    ensures forall d | d in s.diagnostics && d.severity == Error :: d.id in baseline.ids
    ensures !(profile.Refresh? && reported.ok && reported.completionKnown && reported.done) ==>
              forall d | d in s.diagnostics :: d.id in baseline.ids
  {
    forall d | d in s.diagnostics ensures d.severity == Error || d.severity == Warning {
    }
  }

  /** When a baseline comes from the same complete source as the last read, a write with nothing new
      passes; without one only a clean compilation does, or for a finished refresh one without errors. */
  lemma PassedExactly(profile: Profile, baseline: Baseline, s: Snapshot, reported: Reported)
    requires s.project == baseline.project && s.process == baseline.process
    ensures var consoles := Console(baseline.source, baseline.complete) && Console(s.source, s.complete);
            var pipelines := Pipeline(baseline.source, baseline.complete, baseline.capturedAt)
                             && Pipeline(s.source, s.complete, s.capturedAt);
            var compared := (!profile.AssetWrite? && consoles) || pipelines;
            var finished := profile.Refresh? && reported.ok && reported.completionKnown && reported.done;
            Judge(profile, baseline, s, reported) == Passed
            <==> if compared then forall d | d in s.diagnostics :: d.id in baseline.ids
                 else Pipeline(s.source, s.complete, s.capturedAt)
                      && forall d | d in s.diagnostics :: d.severity == Warning && finished
  {
    forall d | d in s.diagnostics ensures d.severity == Error || d.severity == Warning {
    }
  }
}
