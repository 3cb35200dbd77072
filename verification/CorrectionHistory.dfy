/** Compacting a conversation to the renderer selections that were corrected.

    A failed selection and the successful one that corrects it are kept as small
    call and receipt pairs; everything else is dropped. */
module CorrectionHistory {
  import opened FileSystem

  const MARKER := "Unknown rendererPaths in selected avatar:"

  datatype Request = Request(tool: string, action: string, corrects: string, project: string, avatar: string, paths: seq<string>)

  /** A call whose arguments do not parse has no request. */
  datatype Call = Call(id: string, request: Option<Request>)

  /** An outcome that is not an object is `None`. */
  datatype Observation = Observation(action: string, tool: string, outcome: Option<string>, detail: string)

  datatype Message = Assistant(calls: seq<Call>) | Tool(callId: string, receipt: Option<seq<Observation>>) | Other

  datatype Pair = Pair(call: Call, observation: Observation)

  datatype State = State(calls: map<string, Call>, actions: map<string, Pair>, retained: seq<Pair>)

  const EMPTY := State(map[], map[], [])

  // The part of a failure that names the unknown paths.

  function IndexOf(s: string, part: string): Option<nat> {
    if part <= s then Some(0)
    else if s == "" then None
    else
      var rest := IndexOf(s[1..], part);
      if rest.Some? then Some(rest.value + 1) else None
  }

  function UpTo(s: string, stop: char): string {
    if s == "" || s[0] == stop then "" else [s[0]] + UpTo(s[1..], stop)
  }

  function FailureDetail(detail: string): string {
    var at := IndexOf(detail, MARKER);
    if at.Some? && at.value <= |detail| then UpTo(detail[at.value..], ';') else ""
  }

  predicate OccursAt(s: string, part: string, k: nat) {
    k <= |s| && part <= s[k..]
  }

  lemma {:induction false} IndexOfIs(s: string, part: string)
    ensures var at := IndexOf(s, part);
            if at.None? then forall k: nat :: !OccursAt(s, part, k)
            else OccursAt(s, part, at.value) && forall k | 0 <= k < at.value :: !OccursAt(s, part, k)
  {
    if part <= s {
      assert s[0..] == s;
    } else if s == "" {
      forall k: nat ensures !OccursAt(s, part, k) {
        assert k <= |s| ==> s[k..] == s;
      }
    } else {
      IndexOfIs(s[1..], part);
      assert !OccursAt(s, part, 0) by {
        assert s[0..] == s;
      }
      forall k | 0 < k <= |s| ensures OccursAt(s, part, k) <==> OccursAt(s[1..], part, k - 1) {
        assert s[1..][k - 1..] == s[k..];
      }
    }
  }

  lemma {:induction false} UpToIs(s: string, stop: char)
    ensures UpTo(s, stop) <= s && stop !in UpTo(s, stop)
    ensures UpTo(s, stop) == s || s[|UpTo(s, stop)|] == stop
  {
    if s != "" && s[0] != stop {
      UpToIs(s[1..], stop);
    }
  }

  /** The detail of a failure is the text from the first mark on, up to the next semicolon; without a mark there is none. */
  lemma FailureDetailIs(detail: string)
    ensures var r := FailureDetail(detail);
            if forall k: nat :: !OccursAt(detail, MARKER, k) then r == ""
            else exists k: nat ::
              && OccursAt(detail, MARKER, k) && (forall j | 0 <= j < k :: !OccursAt(detail, MARKER, j))
              && r <= detail[k..] && ';' !in r && (r == detail[k..] || detail[k + |r|] == ';')
  {
    IndexOfIs(detail, MARKER);
    var at := IndexOf(detail, MARKER);
    if at.Some? {
      UpToIs(detail[at.value..], ';');
      assert OccursAt(detail, MARKER, at.value);
    }
  }

  // One observation.

  predicate Usable(r: Request) {
    r.paths != [] && "" !in r.paths && r.project != "" && r.avatar != ""
  }

  predicate Selects(c: Call) {
    c.request.Some? && Usable(c.request.value)
  }

  /** `x` failed because of unknown paths, and `y` selects others for the same avatar in answer to it. */
  predicate Corrects(y: Pair, x: Pair) {
    && Selects(x.call) && Selects(y.call)
    && x.observation.outcome == Some("failed") && x.observation.detail != "" && y.observation.outcome == Some("ok")
    && var p, q := x.call.request.value, y.call.request.value;
       q.tool == p.tool && q.project == p.project && q.avatar == p.avatar && q.paths != p.paths
       && q.action == "correct" && q.corrects == x.observation.action
  }

  /** A dictionary in insertion order: a known key keeps its place. */
  function Put(s: seq<Pair>, p: Pair): seq<Pair> {
    if s == [] then [p] else if s[0].call.id == p.call.id then [p] + s[1..] else [s[0]] + Put(s[1..], p)
  }

  predicate Confirms(actions: map<string, Pair>, y: Pair) {
    && Selects(y.call) && y.call.request.value.corrects in actions
    && Corrects(y, actions[y.call.request.value.corrects])
  }

  function Small(call: Call, o: Observation): Pair {
    Pair(call, o.(detail := FailureDetail(o.detail)))
  }

  function Observed(s: State, call: Call, o: Observation): State {
    if o.action == "" || o.outcome.None? then s
    else
      var pair := Small(call, o);
      s.(actions := s.actions[o.action := pair],
         retained := if Confirms(s.actions, pair) then Put(Put(s.retained, s.actions[pair.call.request.value.corrects]), pair)
                     else s.retained)
  }

  function ObservedAll(s: State, call: Call, os: seq<Observation>): State {
    if os == [] then s else Observed(ObservedAll(s, call, os[..|os| - 1]), call, os[|os| - 1])
  }

  function Called(calls: map<string, Call>, more: seq<Call>): map<string, Call> {
    if more == [] then calls
    else
      var before, c := Called(calls, more[..|more| - 1]), more[|more| - 1];
      if Selects(c) then before[c.id := c] else before
  }

  function Step(s: State, m: Message): State {
    match m
    case Assistant(calls) => s.(calls := Called(s.calls, calls))
    case Tool(id, receipt) => if id in s.calls && receipt.Some? then ObservedAll(s, s.calls[id], receipt.value) else s
    case Other => s
  }

  function Run(messages: seq<Message>): State {
    if messages == [] then EMPTY else Step(Run(messages[..|messages| - 1]), messages[|messages| - 1])
  }

  function Flatten(pairs: seq<Pair>): seq<Message> {
    if pairs == [] then []
    else
      var p := pairs[|pairs| - 1];
      Flatten(pairs[..|pairs| - 1]) + [Assistant([p.call]), Tool(p.call.id, Some([p.observation]))]
  }

  /** One pass over the messages, updating the calls, the actions and what is retained as it goes. */
  method Compact(messages: seq<Message>) returns (r: seq<Message>)
    ensures r == Flatten(Run(messages).retained)
  {
    var calls: map<string, Call>, actions: map<string, Pair>, retained: seq<Pair> := map[], map[], [];
    for i := 0 to |messages|
      invariant State(calls, actions, retained) == Run(messages[..i])
    {
      var m := messages[i];
      assert messages[..i + 1][..i] == messages[..i];
      if m.Assistant? {
        calls := AddCalls(calls, m.calls);
      } else if m.Tool? && m.callId in calls && m.receipt.Some? {
        actions, retained := AddReceipt(calls, actions, retained, calls[m.callId], m.receipt.value);
      }
    }
    assert messages[..|messages|] == messages;
    r := Expand(retained);
  }

  method AddCalls(known: map<string, Call>, more: seq<Call>) returns (calls: map<string, Call>)
    ensures calls == Called(known, more)
  {
    calls := known;
    for i := 0 to |more|
      invariant calls == Called(known, more[..i])
    {
      assert more[..i + 1][..i] == more[..i];
      if Selects(more[i]) {
        calls := calls[more[i].id := more[i]];
      }
    }
    assert more[..|more|] == more;
  }

  method AddReceipt(ghost calls: map<string, Call>, known: map<string, Pair>, kept: seq<Pair>, call: Call, os: seq<Observation>)
    returns (actions: map<string, Pair>, retained: seq<Pair>)
    ensures State(calls, actions, retained) == ObservedAll(State(calls, known, kept), call, os)
  {
    actions, retained := known, kept;
    for i := 0 to |os|
      invariant State(calls, actions, retained) == ObservedAll(State(calls, known, kept), call, os[..i])
    {
      assert os[..i + 1][..i] == os[..i];
      var o := os[i];
      if o.action != "" && o.outcome.Some? {
        var pair := Small(call, o);
        if Confirms(actions, pair) {
          retained := Put(retained, actions[pair.call.request.value.corrects]);
          retained := Put(retained, pair);
        }
        actions := actions[o.action := pair];
      }
    }
    assert os[..|os|] == os;
  }

  method Expand(pairs: seq<Pair>) returns (r: seq<Message>)
    ensures r == Flatten(pairs)
  {
    r := [];
    for i := 0 to |pairs|
      invariant r == Flatten(pairs[..i])
    {
      assert pairs[..i + 1][..i] == pairs[..i];
      r := r + [Assistant([pairs[i].call]), Tool(pairs[i].call.id, Some([pairs[i].observation]))];
    }
    assert pairs[..|pairs|] == pairs;
  }

  // The failure detail of a failure detail is itself.

  lemma {:induction false} UpToPrefix(s: string, stop: char)
    ensures UpTo(s, stop) <= s && stop !in UpTo(s, stop)
  {
    if s != "" && s[0] != stop {
      UpToPrefix(s[1..], stop);
      assert s == [s[0]] + s[1..];
    }
  }

  lemma {:induction false} UpToKeeps(s: string, part: string, stop: char)
    requires part <= s && stop !in part
    ensures part <= UpTo(s, stop)
  {
    if part != "" {
      assert part[0] in part && s[0] == part[0];
      assert part[1..] <= s[1..] && forall c | c in part[1..] :: c in part;
      UpToKeeps(s[1..], part[1..], stop);
      assert part == [part[0]] + part[1..];
    }
  }

  lemma {:induction false} UpToTwice(s: string, stop: char)
    requires stop !in s
    ensures UpTo(s, stop) == s
  {
    if s != "" {
      assert s[0] in s && forall c | c in s[1..] :: c in s;
      UpToTwice(s[1..], stop);
    }
  }

  lemma {:induction false} FoundThere(s: string, part: string)
    requires IndexOf(s, part).Some?
    ensures IndexOf(s, part).value <= |s| && part <= s[IndexOf(s, part).value..]
  {
    if !(part <= s) {
      FoundThere(s[1..], part);
    }
  }

  lemma DetailTwice(detail: string)
    ensures FailureDetail(FailureDetail(detail)) == FailureDetail(detail)
  {
    var at := IndexOf(detail, MARKER);
    if at.Some? {
      FoundThere(detail, MARKER);
      UpToKeeps(detail[at.value..], MARKER, ';');
      UpToPrefix(detail[at.value..], ';');
      UpToTwice(FailureDetail(detail), ';');
      assert FailureDetail(detail)[0..] == FailureDetail(detail);
    }
  }

  // What is retained.

  /** Every call is answered at most once, with at most one observation. */
  predicate Tidy(messages: seq<Message>) {
    && (forall i, j :: 0 <= i < j < |messages| && messages[i].Tool? && messages[j].Tool? ==>
          messages[i].callId != messages[j].callId)
    && (forall i :: 0 <= i < |messages| && messages[i].Tool? && messages[i].receipt.Some? ==> |messages[i].receipt.value| <= 1)
  }

  function Answered(messages: seq<Message>): set<string> {
    set m | m in messages && m.Tool? :: m.callId
  }

  predicate Compacted(p: Pair) {
    && Selects(p.call) && p.observation.action != "" && p.observation.outcome.Some?
    && FailureDetail(p.observation.detail) == p.observation.detail
  }

  ghost predicate Each(ps: seq<Pair>) {
    forall i, j :: 0 <= i < j < |ps| ==> ps[i].call.id != ps[j].call.id
  }

  predicate Kept(p: Pair, answered: set<string>) {
    Compacted(p) && p.call.id in answered
  }

  ghost predicate FiledCalls(calls: map<string, Call>) {
    forall id | id in calls :: Selects(calls[id]) && calls[id].id == id
  }

  ghost predicate FiledActions(actions: map<string, Pair>, answered: set<string>) {
    && (forall a | a in actions :: Kept(actions[a], answered) && actions[a].observation.action == a)
    && (forall a, b | a in actions && b in actions && actions[a].call.id == actions[b].call.id :: a == b)
  }

  ghost predicate FiledRetained(ps: seq<Pair>, answered: set<string>) {
    Each(ps) && forall p | p in ps :: Kept(p, answered)
  }

  ghost predicate OnePair(actions: map<string, Pair>, ps: seq<Pair>) {
    forall a, p | a in actions && p in ps && p.call.id == actions[a].call.id :: p == actions[a]
  }

  /** Calls and actions are filed under their own names, and one call has one pair. */
  ghost predicate Filed(s: State, answered: set<string>) {
    && FiledCalls(s.calls) && FiledActions(s.actions, answered)
    && FiledRetained(s.retained, answered) && OnePair(s.actions, s.retained)
  }

  predicate CorrectsEarlier(ps: seq<Pair>, i: nat)
    requires i < |ps|
  {
    exists j :: 0 <= j < i && Corrects(ps[i], ps[j])
  }

  predicate CorrectedLater(ps: seq<Pair>, i: nat)
    requires i < |ps|
  {
    exists j :: i < j < |ps| && Corrects(ps[j], ps[i])
  }

  /** Every pair is a failure with a later correction, or the correction of an earlier failure. */
  ghost predicate Matched(ps: seq<Pair>) {
    forall i :: 0 <= i < |ps| ==> CorrectsEarlier(ps, i) || CorrectedLater(ps, i)
  }

  lemma {:induction false} PutNew(ps: seq<Pair>, p: Pair)
    requires forall q | q in ps :: q.call.id != p.call.id
    ensures Put(ps, p) == ps + [p]
  {
    if ps != [] {
      assert ps[0] in ps && forall q | q in ps[1..] :: q in ps;
      PutNew(ps[1..], p);
    }
  }

  lemma {:induction false} PutSame(ps: seq<Pair>, p: Pair)
    requires Each(ps) && p in ps
    ensures Put(ps, p) == ps
  {
    if ps[0].call.id == p.call.id {
      assert ps[0] == p;
    } else {
      assert p in ps[1..];
      PutSame(ps[1..], p);
    }
  }

  /** One more pair, read back. */
  function Absorbed(s: State, p: Pair): State {
    Observed(s.(calls := s.calls[p.call.id := p.call]), p.call, p.observation)
  }

  lemma RunFlatten(ps: seq<Pair>, p: Pair)
    requires Selects(p.call)
    ensures Run(Flatten(ps + [p])) == Absorbed(Run(Flatten(ps)), p)
  {
    assert (ps + [p])[..|ps|] == ps;
    var calls, os := [p.call], [p.observation];
    var front, m, n := Flatten(ps), Assistant(calls), Tool(p.call.id, Some(os));
    assert Flatten(ps + [p]) == (front + [m]) + [n];
    assert ((front + [m]) + [n])[..|front| + 1] == front + [m] && (front + [m])[..|front|] == front;
    var t := Run(front);
    assert calls[..0] == [] && Called(t.calls, calls) == t.calls[p.call.id := p.call];
    var u := t.(calls := t.calls[p.call.id := p.call]);
    assert Run(front + [m]) == u;
    assert os[..0] == [] && ObservedAll(u, p.call, os) == Observed(u, p.call, p.observation);
  }

  lemma MatchedAppend(ps: seq<Pair>, y: Pair, i: nat)
    requires Matched(ps) && i < |ps| && Corrects(y, ps[i])
    ensures Matched(ps + [y])
  {
    var all := ps + [y];
    forall k | 0 <= k < |all| ensures CorrectsEarlier(all, k) || CorrectedLater(all, k) {
      if k < |ps| {
        if CorrectsEarlier(ps, k) {
          var j :| 0 <= j < k && Corrects(ps[k], ps[j]);
          assert Corrects(all[k], all[j]);
        } else {
          var j :| k < j < |ps| && Corrects(ps[j], ps[k]);
          assert Corrects(all[j], all[k]);
        }
      } else {
        assert Corrects(all[k], all[i]);
      }
    }
  }

  lemma MatchedPair(ps: seq<Pair>, x: Pair, y: Pair)
    requires Matched(ps) && Corrects(y, x)
    ensures Matched(ps + [x, y])
  {
    var all := ps + [x, y];
    forall k | 0 <= k < |all| ensures CorrectsEarlier(all, k) || CorrectedLater(all, k) {
      if k < |ps| {
        if CorrectsEarlier(ps, k) {
          var j :| 0 <= j < k && Corrects(ps[k], ps[j]);
          assert Corrects(all[k], all[j]);
        } else {
          var j :| k < j < |ps| && Corrects(ps[j], ps[k]);
          assert Corrects(all[j], all[k]);
        }
      } else if k == |ps| {
        assert Corrects(all[|ps| + 1], all[k]);
      } else {
        assert Corrects(all[k], all[|ps|]);
      }
    }
  }

  /** What an observation retains: nothing more, its own pair, or the failure it corrects and its own pair. */
  lemma RetainedAfter(s: State, answered: set<string>, call: Call, o: Observation)
    requires Filed(s, answered) && Selects(call) && call.id !in answered && o.action != "" && o.outcome.Some?
    ensures var t, y := Observed(s, call, o), Small(call, o);
            && (!Confirms(s.actions, y) ==> t.retained == s.retained)
            && (Confirms(s.actions, y) ==>
                  var x := s.actions[call.request.value.corrects];
                  t.retained == if x in s.retained then s.retained + [y] else s.retained + [x, y])
  {
    var y := Small(call, o);
    if Confirms(s.actions, y) {
      var x := s.actions[call.request.value.corrects];
      if x in s.retained {
        PutSame(s.retained, x);
        PutNew(s.retained, y);
      } else {
        PutNew(s.retained, x);
        PutNew(s.retained + [x], y);
        assert s.retained + [x] + [y] == s.retained + [x, y];
      }
    }
  }

  lemma ActionsFiled(actions: map<string, Pair>, answered: set<string>, y: Pair)
    requires FiledActions(actions, answered) && Compacted(y) && y.call.id !in answered
    ensures FiledActions(actions[y.observation.action := y], answered + {y.call.id})
  {
  }

  lemma RetainedFiled(ps: seq<Pair>, answered: set<string>, p: Pair)
    requires FiledRetained(ps, answered) && Compacted(p) && forall q | q in ps :: q.call.id != p.call.id
    ensures FiledRetained(ps + [p], answered + {p.call.id})
  {
    forall i, j | 0 <= i < j < |ps + [p]| ensures (ps + [p])[i].call.id != (ps + [p])[j].call.id {
      assert (ps + [p])[i] == ps[i] && ps[i] in ps;
    }
  }

  lemma PairsStay(actions: map<string, Pair>, ps: seq<Pair>, answered: set<string>, y: Pair)
    requires FiledActions(actions, answered) && FiledRetained(ps, answered) && OnePair(actions, ps) && y.call.id !in answered
    ensures OnePair(actions[y.observation.action := y], ps) && OnePair(actions[y.observation.action := y], ps + [y])
  {
  }

  lemma PairsGrow(actions: map<string, Pair>, ps: seq<Pair>, answered: set<string>, a: string)
    requires FiledActions(actions, answered) && OnePair(actions, ps) && a in actions && actions[a] !in ps
    ensures OnePair(actions, ps + [actions[a]]) && forall q | q in ps :: q.call.id != actions[a].call.id
  {
  }

  lemma ObservedFiled(s: State, answered: set<string>, call: Call, o: Observation)
    requires Filed(s, answered) && Selects(call) && call.id !in answered && o.action != "" && o.outcome.Some?
    ensures Filed(Observed(s, call, o), answered + {call.id})
  {
    RetainedAfter(s, answered, call, o);
    DetailTwice(o.detail);
    var y, ps := Small(call, o), s.retained;
    ActionsFiled(s.actions, answered, y);
    PairsStay(s.actions, ps, answered, y);
    if Confirms(s.actions, y) {
      var a := call.request.value.corrects;
      var x := s.actions[a];
      if x in ps {
        RetainedFiled(ps, answered, y);
      } else {
        PairsGrow(s.actions, ps, answered, a);
        RetainedFiled(ps, answered, x);
        assert answered + {x.call.id} == answered;
        RetainedFiled(ps + [x], answered, y);
        PairsStay(s.actions, ps + [x], answered, y);
        assert ps + [x] + [y] == ps + [x, y];
      }
    }
  }

  lemma ObservedMatched(s: State, answered: set<string>, call: Call, o: Observation)
    requires Filed(s, answered) && Selects(call) && call.id !in answered && o.action != "" && o.outcome.Some?
    requires Matched(s.retained)
    ensures Matched(Observed(s, call, o).retained)
  {
    RetainedAfter(s, answered, call, o);
    var y := Small(call, o);
    if Confirms(s.actions, y) {
      var x := s.actions[call.request.value.corrects];
      if x in s.retained {
        var i :| 0 <= i < |s.retained| && s.retained[i] == x;
        MatchedAppend(s.retained, y, i);
      } else {
        MatchedPair(s.retained, x, y);
      }
    }
  }

  /** Reading back a pair that is already compact files it unchanged. */
  lemma AbsorbedCompact(s: State, p: Pair)
    requires Compacted(p)
    ensures var t := Absorbed(s, p);
            && t.actions == s.actions[p.observation.action := p]
            && t.retained == if Confirms(s.actions, p)
                             then Put(Put(s.retained, s.actions[p.call.request.value.corrects]), p) else s.retained
  {
    assert Small(p.call, p.observation) == p;
  }

  /** The actions of retained pairs are filed again when the pairs are read back. */
  ghost predicate FiledAgain(actions: map<string, Pair>, ps: seq<Pair>, again: State) {
    again.retained == ps && forall a | a in actions && actions[a] in ps :: a in again.actions && again.actions[a] == actions[a]
  }

  ghost predicate Named(actions: map<string, Pair>) {
    forall a | a in actions :: actions[a].observation.action == a
  }

  /** Filing one more pair under its name, on both sides. */
  lemma FiledMore(actions: map<string, Pair>, ps: seq<Pair>, again: State, y: Pair, after: State)
    requires Named(actions) && FiledAgain(actions, ps, again) && after.retained == ps + [y]
    requires after.actions == again.actions[y.observation.action := y]
    ensures FiledAgain(actions[y.observation.action := y], ps + [y], after)
  {
    var more := actions[y.observation.action := y];
    forall a | a in more && more[a] in ps + [y] ensures a in after.actions && after.actions[a] == more[a] {
      if a != y.observation.action {
        assert actions[a] == y ==> a == y.observation.action;
        assert actions[a] in ps;
      }
    }
  }

  lemma StableKnown(s: State, again: State, x: Pair, y: Pair)
    requires Named(s.actions) && FiledAgain(s.actions, s.retained, again) && Compacted(y)
    requires y.call.request.value.corrects in s.actions && x == s.actions[y.call.request.value.corrects] && x in s.retained
    requires Corrects(y, x) && Put(Put(s.retained, x), y) == s.retained + [y]
    ensures FiledAgain(s.actions[y.observation.action := y], s.retained + [y], Absorbed(again, y))
  {
    AbsorbedCompact(again, y);
    FiledMore(s.actions, s.retained, again, y, Absorbed(again, y));
  }

  lemma StableNew(s: State, again: State, x: Pair, y: Pair)
    requires Named(s.actions) && FiledAgain(s.actions, s.retained, again) && Compacted(x) && Compacted(y)
    requires x.observation.action in s.actions && x == s.actions[x.observation.action] && Corrects(y, x)
    requires Put(s.retained, x) == s.retained + [x] && Put(s.retained + [x], y) == s.retained + [x] + [y]
    ensures FiledAgain(s.actions[y.observation.action := y], s.retained + [x] + [y], Absorbed(Absorbed(again, x), y))
  {
    AbsorbedCompact(again, x);
    var once := Absorbed(again, x);
    assert !Confirms(again.actions, x);
    var listed := State(once.calls, once.actions, s.retained + [x]);
    assert s.actions[x.observation.action := x] == s.actions;
    FiledMore(s.actions, s.retained, again, x, listed);
    AbsorbedCompact(once, y);
    assert Confirms(once.actions, y);
    FiledMore(s.actions, s.retained + [x], listed, y, Absorbed(once, y));
  }

  lemma PutKnown(ps: seq<Pair>, x: Pair, y: Pair)
    requires Each(ps) && forall q | q in ps :: q.call.id != y.call.id
    ensures x in ps ==> Put(Put(ps, x), y) == ps + [y]
    ensures (forall q | q in ps :: q.call.id != x.call.id) && x.call.id != y.call.id ==>
              Put(ps, x) == ps + [x] && Put(ps + [x], y) == ps + [x] + [y]
  {
    if x in ps {
      PutSame(ps, x);
      PutNew(ps, y);
    } else if (forall q | q in ps :: q.call.id != x.call.id) && x.call.id != y.call.id {
      PutNew(ps, x);
      PutNew(ps + [x], y);
    }
  }

  lemma ObservedStable(s: State, answered: set<string>, call: Call, o: Observation)
    requires Filed(s, answered) && Selects(call) && call.id !in answered && o.action != "" && o.outcome.Some?
    requires FiledAgain(s.actions, s.retained, Run(Flatten(s.retained)))
    requires Confirms(s.actions, Small(call, o))
    ensures var t := Observed(s, call, o); FiledAgain(t.actions, t.retained, Run(Flatten(t.retained)))
  {
    RetainedAfter(s, answered, call, o);
    DetailTwice(o.detail);
    var y, again, ps := Small(call, o), Run(Flatten(s.retained)), s.retained;
    var x := s.actions[call.request.value.corrects];
    assert forall q | q in ps :: q.call.id != y.call.id;
    PutKnown(ps, x, y);
    if x in ps {
      RunFlatten(ps, y);
      StableKnown(s, again, x, y);
    } else {
      assert ps + [x] + [y] == ps + [x, y];
      RunFlatten(ps, x);
      RunFlatten(ps + [x], y);
      StableNew(s, again, x, y);
    }
  }

  lemma ObservedStill(s: State, answered: set<string>, call: Call, o: Observation)
    requires Filed(s, answered) && Selects(call) && call.id !in answered && o.action != "" && o.outcome.Some?
    requires FiledAgain(s.actions, s.retained, Run(Flatten(s.retained)))
    requires !Confirms(s.actions, Small(call, o))
    ensures var t := Observed(s, call, o); FiledAgain(t.actions, t.retained, Run(Flatten(t.retained)))
  {
    assert Small(call, o) !in s.retained;
  }

  lemma {:induction false} CalledFiled(calls: map<string, Call>, more: seq<Call>)
    requires FiledCalls(calls)
    ensures FiledCalls(Called(calls, more))
  {
    if more != [] {
      CalledFiled(calls, more[..|more| - 1]);
    }
  }

  ghost predicate Sound(s: State, answered: set<string>) {
    Filed(s, answered) && Matched(s.retained) && FiledAgain(s.actions, s.retained, Run(Flatten(s.retained)))
  }

  lemma SoundMore(s: State, answered: set<string>, id: string)
    requires Sound(s, answered)
    ensures Sound(s, answered + {id})
  {
    forall p: Pair | Kept(p, answered) ensures Kept(p, answered + {id}) {
    }
  }

  lemma SoundObserved(s: State, answered: set<string>, call: Call, o: Observation)
    requires Sound(s, answered) && Selects(call) && call.id !in answered
    ensures Sound(Observed(s, call, o), answered + {call.id})
  {
    if o.action == "" || o.outcome.None? {
      SoundMore(s, answered, call.id);
    } else {
      ObservedFiled(s, answered, call, o);
      ObservedMatched(s, answered, call, o);
      if Confirms(s.actions, Small(call, o)) {
        ObservedStable(s, answered, call, o);
      } else {
        ObservedStill(s, answered, call, o);
      }
    }
  }

  lemma SoundStep(s: State, answered: set<string>, m: Message)
    requires Sound(s, answered)
    requires m.Tool? ==> m.callId !in answered && (m.receipt.Some? ==> |m.receipt.value| <= 1)
    ensures Sound(Step(s, m), if m.Tool? then answered + {m.callId} else answered)
  {
    if m.Assistant? {
      CalledFiled(s.calls, m.calls);
    } else if m.Tool? {
      SoundMore(s, answered, m.callId);
      if m.callId in s.calls && m.receipt.Some? && |m.receipt.value| == 1 {
        var os := m.receipt.value;
        assert os[..0] == [] && ObservedAll(s, s.calls[m.callId], os) == Observed(s, s.calls[m.callId], os[0]);
        SoundObserved(s, answered, s.calls[m.callId], os[0]);
      }
    }
  }

  lemma {:induction false} SoundRun(messages: seq<Message>)
    requires Tidy(messages)
    ensures Sound(Run(messages), Answered(messages))
  {
    if messages != [] {
      var n := |messages| - 1;
      var before, m := messages[..n], messages[n];
      assert messages == before + [m];
      SoundRun(before);
      AnsweredOnce(before, m);
      SoundStep(Run(before), Answered(before), m);
      assert Answered(messages) == if m.Tool? then Answered(before) + {m.callId} else Answered(before);
    }
  }

  /** Compacting a compacted history returns it unchanged. */
  lemma CompactingTwice(messages: seq<Message>)
    requires Tidy(messages)
    ensures var once := Flatten(Run(messages).retained); Flatten(Run(once).retained) == once
  {
    SoundRun(messages);
  }

  /** Every retained success is preceded by the failed selection it corrects, and every retained
      failure is followed by a correction of it. */
  lemma CorrectionsFollow(messages: seq<Message>, i: nat)
    requires Tidy(messages) && i < |Run(messages).retained|
    ensures var ps := Run(messages).retained;
            && ps[i].observation.outcome.Some? && ps[i].call.request.Some?
            && (ps[i].observation.outcome == Some("ok") ==> CorrectsEarlier(ps, i))
            && (ps[i].observation.outcome != Some("ok") ==> ps[i].observation.outcome == Some("failed") && CorrectedLater(ps, i))
    ensures var ps := Run(messages).retained;
            ps[i].observation.outcome == Some("ok") ==>
              var q := ps[i].call.request.value;
              exists j | 0 <= j < i ::
                && ps[j].observation.outcome == Some("failed") && ps[j].observation.action == q.corrects && ps[j].call.request.Some?
                && var p := ps[j].call.request.value;
                   p.tool == q.tool && p.project == q.project && p.avatar == q.avatar && p.paths != q.paths
  {
    SoundRun(messages);
    var ps := Run(messages).retained;
    assert CorrectsEarlier(ps, i) || CorrectedLater(ps, i);
    assert "ok" != "failed";
    if CorrectsEarlier(ps, i) {
      var j :| 0 <= j < i && Corrects(ps[i], ps[j]);
    }
  }

  /** The compacted history is a call followed by its own receipt, once for every retained pair. */
  lemma {:induction false} CallsAndReceipts(ps: seq<Pair>, i: nat)
    requires i < |ps|
    ensures |Flatten(ps)| == 2 * |ps|
    ensures Flatten(ps)[2 * i] == Assistant([ps[i].call])
    ensures Flatten(ps)[2 * i + 1] == Tool(ps[i].call.id, Some([ps[i].observation]))
  {
    var n := |ps| - 1;
    if n == 0 {
      assert ps[..0] == [];
    } else {
      CallsAndReceipts(ps[..n], if i < n then i else 0);
    }
  }

  // Nothing that was confirmed is lost.

  lemma StaysOnStep(s: State, answered: set<string>, m: Message, p: Pair)
    requires Sound(s, answered) && p in s.retained
    requires m.Tool? ==> m.callId !in answered && (m.receipt.Some? ==> |m.receipt.value| <= 1)
    ensures p in Step(s, m).retained
  {
    if m.Tool? && m.callId in s.calls && m.receipt.Some? && |m.receipt.value| == 1 {
      var call, os := s.calls[m.callId], m.receipt.value;
      assert os[..0] == [] && ObservedAll(s, call, os) == Observed(s, call, os[0]);
      if os[0].action != "" && os[0].outcome.Some? {
        RetainedAfter(s, answered, call, os[0]);
      }
    }
  }

  lemma {:induction false} StaysRetained(before: seq<Message>, after: seq<Message>, p: Pair)
    requires Tidy(before + after) && p in Run(before).retained
    ensures p in Run(before + after).retained
  {
    if after == [] {
      assert before + after == before;
    } else {
      var n := |after| - 1;
      var front, m := before + after[..n], after[n];
      assert before + after == front + [m];
      assert (before + after)[..|front|] == front;
      StaysRetained(before, after[..n], p);
      SoundRun(front);
      AnsweredOnce(front, m);
      StaysOnStep(Run(front), Answered(front), m, p);
    }
  }

  lemma AnsweredOnce(front: seq<Message>, m: Message)
    requires Tidy(front + [m])
    ensures m.Tool? ==> m.callId !in Answered(front) && (m.receipt.Some? ==> |m.receipt.value| <= 1)
  {
    assert (front + [m])[|front|] == m;
    forall q | q in front && q.Tool? && m.Tool? ensures q.callId != m.callId {
      var i :| 0 <= i < |front| && front[i] == q;
      assert (front + [m])[i] == q;
    }
  }

  /** Whenever a success confirms a correction, it and the failure it corrects are in the final result. */
  lemma ConfirmedIsRetained(before: seq<Message>, id: string, o: Observation, after: seq<Message>)
    requires Tidy(before + [Tool(id, Some([o]))] + after)
    requires id in Run(before).calls && o.action != "" && o.outcome.Some?
    requires Confirms(Run(before).actions, Small(Run(before).calls[id], o))
    ensures var s, call, kept := Run(before), Run(before).calls[id], Run(before + [Tool(id, Some([o]))] + after).retained;
            Small(call, o) in kept && s.actions[call.request.value.corrects] in kept
  {
    var m, os := Tool(id, Some([o])), [o];
    var all, s := before + [m], Run(before);
    assert all + after == before + ([m] + after) && all[..|before|] == before && all[|before|] == m;
    assert forall i :: 0 <= i < |all| ==> (all + after)[i] == all[i];
    assert Tidy(all);
    AnsweredOnce(before, m);
    assert forall i :: 0 <= i < |before| ==> all[i] == before[i];
    SoundRun(before);
    RetainedAfter(s, Answered(before), s.calls[id], o);
    assert os[..0] == [] && ObservedAll(s, s.calls[id], os) == Observed(s, s.calls[id], o);
    StaysRetained(all, after, Small(s.calls[id], o));
    StaysRetained(all, after, s.actions[s.calls[id].request.value.corrects]);
  }
}
