/** Usage receipts and how they are merged: counters add up, peaks keep the larger value.

    A receipt is a dictionary in insertion order.  Before every merge both sides
    are bounded: only the first forty keys are kept and each value is clamped. */
module UsageTotals {
  import opened Collections

  const CLAMP: int := 1_000_000_000_000_000
  const MAX_KEYS: nat := 40

  datatype Counter = Counter(name: string)

  datatype Usage = Usage(keys: seq<Counter>, values: map<Counter, int>)

  const NO_USAGE := Usage([], map[])

  ghost predicate Distinct<T>(s: seq<T>) {
    forall i, j :: 0 <= i < j < |s| ==> s[i] != s[j]
  }

  /** Keys are listed once each, and exactly the listed keys have values. */
  ghost predicate Formed(u: Usage) {
    Distinct(u.keys) && forall k :: k in u.keys <==> k in u.values
  }

  function Value(u: Usage, k: Counter): int {
    if k in u.values then u.values[k] else 0
  }

  function Lower(c: char): char {
    if 'A' <= c <= 'Z' then (c as int + 32) as char else c
  }

  function Lowered(s: string): string {
    if s == "" then "" else [Lower(s[0])] + Lowered(s[1..])
  }

  predicate Peak(k: Counter) {
    "peak" <= Lowered(k.name) || "max" <= Lowered(k.name)
  }

  function Max(a: int, b: int): int {
    if a < b then b else a
  }

  function Combine(peak: bool, a: int, b: int): int {
    if peak then Max(a, b) else a + b
  }

  function Clamped(v: int): int {
    if v < 0 then 0 else if v > CLAMP then CLAMP else v
  }

  function FirstForty(keys: seq<Counter>): seq<Counter> {
    if |keys| <= MAX_KEYS then keys else keys[..MAX_KEYS]
  }

  function KeptKeys(u: Usage): seq<Counter> {
    FirstForty(u.keys)
  }

  function Bounded(u: Usage): Usage {
    Usage(KeptKeys(u), map k | k in KeptKeys(u) :: Clamped(Value(u, k)))
  }

  function Fresh(keys: seq<Counter>, known: set<Counter>): seq<Counter> {
    if keys == [] then []
    else Fresh(keys[..|keys| - 1], known) + if keys[|keys| - 1] in known then [] else [keys[|keys| - 1]]
  }

  function Merged(base: Usage, delta: Usage): Usage {
    Joined(Bounded(base), Bounded(delta))
  }

  function Joined(current: Usage, incoming: Usage): Usage {
    Usage(current.keys + Fresh(incoming.keys, current.values.Keys),
          map k | k in current.values.Keys + incoming.values.Keys :: MergedValue(current, incoming, k))
  }

  function MergedValue(current: Usage, incoming: Usage, k: Counter): int {
    if k in incoming.values then Combine(Peak(k), Value(current, k), incoming.values[k]) else Value(current, k)
  }

  lemma KeptFormed(u: Usage)
    requires Formed(u)
    ensures Formed(Bounded(u)) && forall k :: k in Bounded(u).values ==> k in u.values
  {
  }

  lemma {:induction false} FreshFormed(keys: seq<Counter>, known: set<Counter>)
    requires Distinct(keys)
    ensures Distinct(Fresh(keys, known)) && forall k :: k in Fresh(keys, known) <==> k in keys && k !in known
  {
    if keys != [] {
      var front, last := keys[..|keys| - 1], keys[|keys| - 1];
      FreshFormed(front, known);
      assert keys == front + [last];
      assert last !in front;
    }
  }

  /** The loop that bounds a receipt. */
  method Bound(u: Usage) returns (r: Usage)
    ensures r == Bounded(u)
  {
    var keys, values := [], map[];
    var i := 0;
    while i < |u.keys| && i < MAX_KEYS
      invariant i <= |u.keys| && i <= MAX_KEYS && keys == u.keys[..i]
      invariant values == map k | k in u.keys[..i] :: Clamped(Value(u, k))
    {
      var k := u.keys[i];
      assert u.keys[..i + 1] == u.keys[..i] + [k];
      var v := if k in u.values then u.values[k] else 0;
      if v > CLAMP {
        v := CLAMP;
      }
      if v < 0 {
        v := 0;
      }
      keys := keys + [k];
      values := values[k := v];
      i := i + 1;
    }
    r := Usage(keys, values);
    assert u.keys[..i] == KeptKeys(u);
  }

  function Counted(u: Usage, k: Counter, v: int): Usage {
    Usage(if k in u.values then u.keys else u.keys + [k], u.values[k := Combine(Peak(k), Value(u, k), v)])
  }

  function Prefix(u: Usage, i: nat): Usage
    requires i <= |u.keys|
  {
    Usage(u.keys[..i], map k | k in u.keys[..i] :: Value(u, k))
  }

  lemma FreshStep(keys: seq<Counter>, i: nat, known: set<Counter>)
    requires i < |keys|
    ensures Fresh(keys[..i + 1], known) == Fresh(keys[..i], known) + if keys[i] in known then [] else [keys[i]]
  {
    assert keys[..i + 1][..i] == keys[..i];
  }

  lemma AddLast<T>(a: seq<T>, b: seq<T>, x: T)
    ensures a + (b + [x]) == (a + b) + [x] && a + (b + []) == a + b
  {
  }

  lemma JoinStepKeys(current: Usage, incoming: Usage, i: nat)
    requires Formed(current) && Formed(incoming) && i < |incoming.keys|
    ensures var k := incoming.keys[i];
            Joined(current, Prefix(incoming, i + 1)).keys
            == Joined(current, Prefix(incoming, i)).keys + if k in current.values then [] else [k]
  {
    FreshStep(incoming.keys, i, current.values.Keys);
    AddLast(current.keys, Fresh(incoming.keys[..i], current.values.Keys), incoming.keys[i]);
  }

  lemma NotBefore<T>(s: seq<T>, i: nat)
    requires i < |s| && Distinct(s)
    ensures s[i] !in s[..i]
    ensures forall x :: x in s[..i + 1] <==> x in s[..i] || x == s[i]
  {
    assert s[..i + 1] == s[..i] + [s[i]];
  }

  lemma PrefixNext(u: Usage, i: nat)
    requires Formed(u) && i < |u.keys|
    ensures u.keys[i] !in Prefix(u, i).values
    ensures Prefix(u, i + 1).values == Prefix(u, i).values[u.keys[i] := Value(u, u.keys[i])]
  {
    NotBefore(u.keys, i);
  }

  lemma JoinStepValues(current: Usage, before: Usage, after: Usage, k: Counter, v: int)
    requires k !in before.values && after.values == before.values[k := v]
    ensures Joined(current, after).values
            == Joined(current, before).values[k := Combine(Peak(k), Value(Joined(current, before), k), v)]
    ensures k in Joined(current, before).values <==> k in current.values
  {
    var p, q := Joined(current, before), Joined(current, after);
    assert Value(p, k) == Value(current, k);
    assert q.values.Keys == p.values.Keys + {k};
  }

  /** Joining key by key, in order, is joining at once. */
  lemma JoinStep(current: Usage, incoming: Usage, i: nat)
    requires Formed(current) && Formed(incoming) && i < |incoming.keys|
    ensures var k := incoming.keys[i];
            Joined(current, Prefix(incoming, i + 1)) == Counted(Joined(current, Prefix(incoming, i)), k, Value(incoming, k))
  {
    var k := incoming.keys[i];
    PrefixNext(incoming, i);
    JoinStepKeys(current, incoming, i);
    JoinStepValues(current, Prefix(incoming, i), Prefix(incoming, i + 1), k, Value(incoming, k));
  }

  lemma JoinEnds(current: Usage, incoming: Usage)
    requires Formed(current) && Formed(incoming)
    ensures Joined(current, Prefix(incoming, 0)) == current && Prefix(incoming, |incoming.keys|) == incoming
  {
    assert Joined(current, Prefix(incoming, 0)).values == current.values;
    assert incoming.keys[..|incoming.keys|] == incoming.keys;
  }

  method Add(keys: seq<Counter>, values: map<Counter, int>, k: Counter, v: int)
    returns (keys': seq<Counter>, values': map<Counter, int>)
    ensures Usage(keys', values') == Counted(Usage(keys, values), k, v)
  {
    keys' := if k in values then keys else keys + [k];
    var before := if k in values then values[k] else 0;
    if Peak(k) {
      values' := values[k := if before < v then v else before];
    } else {
      values' := values[k := before + v];
    }
  }

  /** The loop that adds one bounded receipt to another. */
  method Join(current: Usage, incoming: Usage) returns (r: Usage)
    requires Formed(current) && Formed(incoming)
    ensures r == Joined(current, incoming)
  {
    var keys, values := current.keys, current.values;
    JoinEnds(current, incoming);
    for i := 0 to |incoming.keys|
      invariant Usage(keys, values) == Joined(current, Prefix(incoming, i))
    {
      JoinStep(current, incoming, i);
      var k := incoming.keys[i];
      keys, values := Add(keys, values, k, incoming.values[k]);
    }
    r := Usage(keys, values);
  }

  method Merge(base: Usage, delta: Usage) returns (r: Usage)
    requires Formed(base) && Formed(delta)
    ensures r == Merged(base, delta)
  {
    var current := Bound(base);
    var incoming := Bound(delta);
    KeptFormed(base);
    KeptFormed(delta);
    r := Join(current, incoming);
  }

  // Totals over many receipts.

  /** The running total: an empty receipt is not merged at all. */
  function TotalOf(deltas: seq<Usage>): Usage {
    if deltas == [] then NO_USAGE
    else
      var before, last := TotalOf(deltas[..|deltas| - 1]), deltas[|deltas| - 1];
      if last.keys == [] then before else Merged(before, last)
  }

  lemma TotalAppend(deltas: seq<Usage>, last: Usage)
    ensures TotalOf(deltas + [last]) == if last.keys == [] then TotalOf(deltas) else Merged(TotalOf(deltas), last)
  {
    assert (deltas + [last])[..|deltas|] == deltas;
  }

  /** What the receipts say about one counter: their sum, or their largest value for a peak. */
  function SumOf(deltas: seq<Usage>, k: Counter): int {
    if deltas == [] then 0
    else Combine(Peak(k), SumOf(deltas[..|deltas| - 1], k), Value(deltas[|deltas| - 1], k))
  }

  /** The counters reported so far, in the order in which they were first reported. */
  function CountersOf(deltas: seq<Usage>): seq<Counter> {
    if deltas == [] then []
    else
      var before := CountersOf(deltas[..|deltas| - 1]);
      before + Fresh(deltas[|deltas| - 1].keys, set k | k in before)
  }

  /** Only the first forty counters ever reported keep their place in the total. */
  predicate Seated(deltas: seq<Usage>, k: Counter) {
    k in CountersOf(deltas) ==> k in FirstForty(CountersOf(deltas))
  }

  /** The last receipt that was merged. */
  function Latest(deltas: seq<Usage>): Usage {
    if deltas == [] then NO_USAGE
    else if deltas[|deltas| - 1].keys == [] then Latest(deltas[..|deltas| - 1])
    else deltas[|deltas| - 1]
  }

  /** A receipt as it is stored in an event: already bounded. */
  ghost predicate Stored(u: Usage) {
    Formed(u) && Bounded(u) == u
  }

  lemma BoundedTwice(u: Usage)
    requires Formed(u)
    ensures Stored(Bounded(u))
  {
    KeptFormed(u);
    assert Bounded(Bounded(u)).values == Bounded(u).values;
  }

  ghost predicate Within(u: Usage) {
    Formed(u) && |u.keys| <= MAX_KEYS && forall k | k in u.values :: 0 <= u.values[k] <= CLAMP
  }

  lemma StoredWithin(u: Usage)
    requires Stored(u)
    ensures Within(u)
  {
    assert |Bounded(u).keys| <= MAX_KEYS;
    forall k | k in u.values ensures 0 <= u.values[k] <= CLAMP {
      assert u.values[k] == Clamped(Value(u, k));
    }
  }

  lemma WithinBounded(u: Usage)
    requires Within(u)
    ensures Bounded(u) == u
  {
    assert Bounded(u).values == u.values;
  }

  lemma DistinctConcat<T>(a: seq<T>, b: seq<T>)
    requires Distinct(a) && Distinct(b) && forall x | x in a :: x !in b
    ensures Distinct(a + b)
  {
    forall i, j | 0 <= i < j < |a + b| ensures (a + b)[i] != (a + b)[j] {
      if i < |a| <= j {
        assert (a + b)[i] in a && (a + b)[j] in b;
      }
    }
  }

  /** A total as it may have grown: its keys may be past the fortieth and its values past the clamp. */
  ghost predicate Grown(u: Usage) {
    Formed(u) && forall k | k in u.values :: 0 <= u.values[k]
  }

  /** A merge adds the receipt to what the clamp leaves of the first forty counters of the total; a
      later one is lost, and starts again from the receipt. */
  lemma MergedValues(base: Usage, delta: Usage)
    requires Grown(base) && Within(delta)
    ensures var m, kept := Merged(base, delta), FirstForty(base.keys);
            && Formed(m) && m.keys == kept + Fresh(delta.keys, set k | k in kept)
            && (forall k :: k in m.keys <==> k in kept || k in delta.keys)
            && (forall k | k in kept :: Value(m, k) == Combine(Peak(k), Clamped(Value(base, k)), Value(delta, k)))
            && forall k | k !in kept :: Value(m, k) == Value(delta, k)
  {
    WithinBounded(delta);
    KeptFormed(base);
    var kept := Bounded(base);
    assert kept.values.Keys == set k | k in kept.keys;
    FreshFormed(delta.keys, kept.values.Keys);
    DistinctConcat(kept.keys, Fresh(delta.keys, kept.values.Keys));
    assert Merged(base, delta) == Joined(kept, delta);
  }

  lemma {:induction false} DistinctSize<T>(s: seq<T>, all: set<T>)
    requires Distinct(s) && forall x | x in s :: x in all
    ensures |s| <= |all|
  {
    if s != [] {
      var last := s[|s| - 1];
      assert last !in s[..|s| - 1];
      DistinctSize(s[..|s| - 1], all - {last});
    }
  }

  lemma {:induction false} ListedSize<T>(s: seq<T>)
    ensures |set x | x in s| <= |s|
  {
    if s != [] {
      var front, last := s[..|s| - 1], s[|s| - 1];
      ListedSize(front);
      assert (set x | x in s) == (set x | x in front) + {last};
    }
  }

  lemma CountersAppend(deltas: seq<Usage>, last: Usage)
    ensures var before := CountersOf(deltas);
            CountersOf(deltas + [last]) == before + Fresh(last.keys, set k | k in before)
  {
    assert (deltas + [last])[..|deltas|] == deltas;
  }

  lemma {:induction false} FreshMembers(keys: seq<Counter>, known: set<Counter>)
    ensures forall k :: k in Fresh(keys, known) <==> k in keys && k !in known
  {
    if keys != [] {
      FreshMembers(keys[..|keys| - 1], known);
      assert keys == keys[..|keys| - 1] + [keys[|keys| - 1]];
    }
  }

  lemma CountersMembers(deltas: seq<Usage>, last: Usage)
    ensures forall k :: k in CountersOf(deltas + [last]) <==> k in CountersOf(deltas) || k in last.keys
  {
    CountersAppend(deltas, last);
    FreshMembers(last.keys, set k | k in CountersOf(deltas));
  }

  lemma {:induction false} CountersDistinct(deltas: seq<Usage>)
    requires forall d | d in deltas :: Within(d)
    ensures Distinct(CountersOf(deltas))
  {
    if deltas != [] {
      var front, last := deltas[..|deltas| - 1], deltas[|deltas| - 1];
      assert last in deltas && forall d | d in front :: d in deltas;
      CountersDistinct(front);
      var known := set k | k in CountersOf(front);
      FreshFormed(last.keys, known);
      DistinctConcat(CountersOf(front), Fresh(last.keys, known));
    }
  }

  /** Dropping all but the first forty between receipts does not change which are the first forty. */
  lemma FirstFortyStep(before: seq<Counter>, keys: seq<Counter>)
    ensures var kept, more := FirstForty(before), Fresh(keys, set k | k in before);
            && FirstForty(kept + Fresh(keys, set k | k in kept)) == FirstForty(before + more)
            && (forall k | k in kept :: k in FirstForty(before + more))
            && forall k | k in FirstForty(before + more) && k !in kept :: k !in before
  {
    var kept, more := FirstForty(before), Fresh(keys, set k | k in before);
    if |before| > MAX_KEYS {
      assert (before + more)[..MAX_KEYS] == kept;
      assert (kept + Fresh(keys, set k | k in kept))[..MAX_KEYS] == kept;
    } else if |before + more| > MAX_KEYS {
      assert (before + more)[..MAX_KEYS] == before + more[..MAX_KEYS - |before|];
    }
  }

  lemma {:induction false} Unreported(deltas: seq<Usage>, k: Counter)
    requires k !in CountersOf(deltas) && forall d | d in deltas :: Within(d)
    ensures SumOf(deltas, k) == 0
  {
    if deltas != [] {
      var front, last := deltas[..|deltas| - 1], deltas[|deltas| - 1];
      assert last in deltas && forall d | d in front :: d in deltas;
      assert deltas == front + [last];
      CountersMembers(front, last);
      Unreported(front, k);
    }
  }

  lemma SumAppend(deltas: seq<Usage>, last: Usage, k: Counter)
    ensures SumOf(deltas + [last], k) == Combine(Peak(k), SumOf(deltas, k), Value(last, k))
  {
    assert (deltas + [last])[..|deltas|] == deltas;
  }

  /** What the receipts before the last say about a counter; an empty receipt is not merged, and not the last. */
  function Rest(deltas: seq<Usage>, k: Counter): int {
    if deltas == [] then 0
    else
      var before := deltas[..|deltas| - 1];
      if deltas[|deltas| - 1].keys == [] then Rest(before, k) else SumOf(before, k)
  }

  lemma RestAppend(deltas: seq<Usage>, last: Usage, k: Counter)
    ensures Rest(deltas + [last], k) == if last.keys == [] then Rest(deltas, k) else SumOf(deltas, k)
  {
    assert (deltas + [last])[..|deltas|] == deltas;
  }

  lemma {:induction false} RestAtMost(deltas: seq<Usage>, k: Counter)
    requires forall d | d in deltas :: Within(d)
    ensures 0 <= Rest(deltas, k) <= SumOf(deltas, k)
  {
    if deltas != [] {
      var front, last := deltas[..|deltas| - 1], deltas[|deltas| - 1];
      assert last in deltas && forall d | d in front :: d in deltas;
      RestAtMost(front, k);
      assert Value(last, k) >= 0;
    }
  }

  /** A clamp loses what is above it. */
  function Excess(v: int): nat {
    if v > CLAMP then v - CLAMP else 0
  }

  lemma {:induction false} PeakAtMost(deltas: seq<Usage>, k: Counter)
    requires Peak(k) && forall d | d in deltas :: Within(d)
    ensures 0 <= SumOf(deltas, k) <= CLAMP
  {
    if deltas != [] {
      var front, last := deltas[..|deltas| - 1], deltas[|deltas| - 1];
      assert last in deltas && forall d | d in front :: d in deltas;
      PeakAtMost(front, k);
      assert 0 <= Value(last, k) <= CLAMP;
    }
  }

  /** The total of one counter.  With a place in the total, a peak is the largest value, and of a sum
      what the receipts before the last had in excess of the clamp is lost; without one, all of that is. */
  function Held(deltas: seq<Usage>, k: Counter): int {
    if !Seated(deltas, k) then Value(Latest(deltas), k)
    else SumOf(deltas, k) - if Peak(k) then 0 else Excess(Rest(deltas, k))
  }

  ghost predicate Totals(u: Usage, deltas: seq<Usage>) {
    && Formed(u) && FirstForty(u.keys) == FirstForty(CountersOf(deltas))
    && (forall k :: k in u.keys <==> k in FirstForty(CountersOf(deltas)) || k in Latest(deltas).keys)
    && forall k :: Value(u, k) == Held(deltas, k)
  }

  lemma LatestAppend(deltas: seq<Usage>, last: Usage)
    ensures Latest(deltas + [last]) == if last.keys == [] then Latest(deltas) else last
  {
    assert (deltas + [last])[..|deltas|] == deltas;
  }

  lemma {:induction false} LatestWithin(deltas: seq<Usage>)
    requires forall d | d in deltas :: Within(d)
    ensures Within(Latest(deltas))
  {
    if deltas != [] {
      var front, last := deltas[..|deltas| - 1], deltas[|deltas| - 1];
      assert last in deltas && forall d | d in front :: d in deltas;
      LatestWithin(front);
    }
  }

  lemma HeldAtLeast(deltas: seq<Usage>, k: Counter)
    requires forall d | d in deltas :: Within(d)
    ensures 0 <= Held(deltas, k)
  {
    RestAtMost(deltas, k);
    LatestWithin(deltas);
    if Peak(k) {
      PeakAtMost(deltas, k);
    }
  }

  lemma TotalsKind(u: Usage, deltas: seq<Usage>)
    requires Totals(u, deltas) && forall d | d in deltas :: Within(d)
    ensures Grown(u)
  {
    forall k | k in u.values ensures 0 <= u.values[k] {
      assert Value(u, k) == u.values[k];
      HeldAtLeast(deltas, k);
    }
  }

  lemma KeysStep(u: Usage, deltas: seq<Usage>, last: Usage)
    requires Grown(u) && Within(last) && last.keys != [] && FirstForty(u.keys) == FirstForty(CountersOf(deltas))
    ensures var m := Merged(u, last);
            Formed(m) && FirstForty(m.keys) == FirstForty(CountersOf(deltas + [last]))
            && forall k :: k in m.keys <==> k in FirstForty(CountersOf(deltas + [last])) || k in last.keys
  {
    hide Merged, FirstForty, Formed, Value, CountersOf, Fresh;
    MergedValues(u, last);
    CountersAppend(deltas, last);
    CountersMembers(deltas, last);
    FirstFortyStep(CountersOf(deltas), last.keys);
    FirstFortyOnly(CountersOf(deltas + [last]));
  }

  lemma FirstFortyOnly(keys: seq<Counter>)
    ensures forall k | k in FirstForty(keys) :: k in keys
  {
  }

  lemma TotalsStep(u: Usage, deltas: seq<Usage>, last: Usage)
    requires Totals(u, deltas) && Grown(u) && Within(last) && last.keys != [] && forall d | d in deltas :: Within(d)
    ensures Totals(Merged(u, last), deltas + [last])
  {
    hide Merged, Held, Value, FirstForty, Grown, Formed, CountersOf;
    KeysStep(u, deltas, last);
    LatestAppend(deltas, last);
    forall k ensures Value(Merged(u, last), k) == Held(deltas + [last], k) {
      MergedValues(u, last);
      if k in FirstForty(u.keys) {
        HeldOn(deltas, last, k);
      } else {
        HeldAfresh(deltas, last, k);
      }
    }
  }

  lemma TotalsIdle(u: Usage, deltas: seq<Usage>, last: Usage)
    requires Totals(u, deltas) && Within(last) && last.keys == [] && forall d | d in deltas :: Within(d)
    ensures Totals(u, deltas + [last])
  {
    CountersAppend(deltas, last);
    assert CountersOf(deltas + [last]) == CountersOf(deltas);
    LatestAppend(deltas, last);
    forall k ensures Held(deltas + [last], k) == Held(deltas, k) {
      SumAppend(deltas, last, k);
      RestAppend(deltas, last, k);
      RestAtMost(deltas, k);
      assert Value(last, k) == 0;
    }
  }

  /** A counter with a place keeps it. */
  lemma HeldOn(deltas: seq<Usage>, last: Usage, k: Counter)
    requires Within(last) && last.keys != [] && forall d | d in deltas :: Within(d)
    requires k in FirstForty(CountersOf(deltas))
    ensures Held(deltas + [last], k) == Combine(Peak(k), Clamped(Held(deltas, k)), Value(last, k))
  {
    CountersAppend(deltas, last);
    FirstFortyStep(CountersOf(deltas), last.keys);
    SumAppend(deltas, last, k);
    RestAppend(deltas, last, k);
    RestAtMost(deltas, k);
    if Peak(k) {
      PeakAtMost(deltas, k);
    }
  }

  /** A counter without one is what the receipt says, whether it is new or was dropped. */
  lemma HeldAfresh(deltas: seq<Usage>, last: Usage, k: Counter)
    requires Within(last) && last.keys != [] && forall d | d in deltas :: Within(d)
    requires k !in FirstForty(CountersOf(deltas))
    ensures Held(deltas + [last], k) == Value(last, k)
  {
    CountersAppend(deltas, last);
    CountersMembers(deltas, last);
    FirstFortyStep(CountersOf(deltas), last.keys);
    LatestAppend(deltas, last);
    if Seated(deltas + [last], k) {
      assert k !in CountersOf(deltas);
      Unreported(deltas, k);
      SumAppend(deltas, last, k);
      RestAppend(deltas, last, k);
      assert 0 <= Value(last, k);
    }
  }

  /** When a total is the sum, or the largest value, of all its receipts. */
  predicate Exact(deltas: seq<Usage>, k: Counter) {
    if Seated(deltas, k) then Peak(k) || Rest(deltas, k) <= CLAMP
    else if Peak(k) then Rest(deltas, k) <= Value(Latest(deltas), k)
    else Rest(deltas, k) == 0
  }

  /** The total of any number of receipts, with any number of counters.  It is exact for a counter that
      is among the first forty if, and only if, the receipts before the last stay within the clamp, a
      peak always; for any later one only if those receipts add nothing to the last. */
  lemma {:induction false} TotalsExact(deltas: seq<Usage>)
    requires forall d | d in deltas :: Within(d)
    ensures Totals(TotalOf(deltas), deltas)
    ensures forall k :: Value(TotalOf(deltas), k) == SumOf(deltas, k) <==> Exact(deltas, k)
  {
    if deltas != [] {
      hide Merged, Totals, Value, SumOf, Within, Exact;
      var n := |deltas| - 1;
      var front, last := deltas[..n], deltas[n];
      assert last in deltas && forall d | d in front :: d in deltas;
      assert front + [last] == deltas;
      TotalsExact(front);
      if last.keys == [] {
        TotalsIdle(TotalOf(front), front, last);
      } else {
        TotalsKind(TotalOf(front), front);
        TotalsStep(TotalOf(front), front, last);
      }
    }
    ExactWhen(TotalOf(deltas), deltas);
  }

  /** All the receipts are the last one and those before it. */
  lemma {:induction false} SumSplit(deltas: seq<Usage>, k: Counter)
    requires forall d | d in deltas :: Within(d)
    ensures SumOf(deltas, k) == Combine(Peak(k), Rest(deltas, k), Value(Latest(deltas), k))
  {
    if deltas != [] {
      var front, last := deltas[..|deltas| - 1], deltas[|deltas| - 1];
      assert last in deltas && forall d | d in front :: d in deltas;
      if last.keys == [] {
        SumSplit(front, k);
        RestAtMost(front, k);
        assert Value(last, k) == 0;
      }
    }
  }

  lemma ExactWhen(u: Usage, deltas: seq<Usage>)
    requires Totals(u, deltas) && forall d | d in deltas :: Within(d)
    ensures forall k :: Value(u, k) == SumOf(deltas, k) <==> Exact(deltas, k)
  {
    forall k ensures Value(u, k) == SumOf(deltas, k) <==> Exact(deltas, k) {
      SumSplit(deltas, k);
    }
  }

  // The parts of a whole: each part loses its own excess.

  function Gathered(peak: bool, s: seq<int>): int {
    if s == [] then 0 else Combine(peak, Gathered(peak, s[..|s| - 1]), s[|s| - 1])
  }

  lemma GatheredAdd(peak: bool, s: seq<int>, x: int)
    ensures Gathered(peak, s + [x]) == Combine(peak, Gathered(peak, s), x)
  {
    assert (s + [x])[..|s|] == s;
  }

  /** Adding to one share adds as much to the whole. */
  lemma {:induction false} GatheredUpdate(peak: bool, s: seq<int>, i: nat, v: int)
    requires i < |s|
    ensures Gathered(peak, s[i := Combine(peak, s[i], v)]) == Combine(peak, Gathered(peak, s), v)
  {
    var n := |s| - 1;
    if i == n {
      assert s[n := Combine(peak, s[n], v)][..n] == s[..n];
    } else {
      assert s[i := Combine(peak, s[i], v)][..n] == s[..n][i := Combine(peak, s[i], v)];
      GatheredUpdate(peak, s[..n], i, v);
    }
  }

  function Excesses(s: seq<int>): nat {
    if s == [] then 0 else Excesses(s[..|s| - 1]) + Excess(s[|s| - 1])
  }

  lemma {:induction false} GatheredAtMost(s: seq<int>, t: seq<int>)
    requires |s| == |t| && forall i | 0 <= i < |s| :: s[i] <= t[i]
    ensures Gathered(false, s) <= Gathered(false, t)
  {
    if s != [] {
      GatheredAtMost(s[..|s| - 1], t[..|s| - 1]);
    }
  }

  lemma {:induction false} GatheredLess(s: seq<int>, t: seq<int>, rests: seq<int>)
    requires |s| == |t| == |rests| && forall i | 0 <= i < |s| :: s[i] == t[i] - Excess(rests[i])
    ensures Gathered(false, s) == Gathered(false, t) - Excesses(rests)
  {
    if s != [] {
      var n := |s| - 1;
      GatheredLess(s[..n], t[..n], rests[..n]);
    }
  }

  /** Together the parts lose no more than the whole would. */
  lemma {:induction false} ExcessesAtMost(s: seq<int>)
    requires forall x | x in s :: 0 <= x
    ensures Excesses(s) <= Excess(Gathered(false, s)) && 0 <= Gathered(false, s)
    ensures forall x | x in s :: x <= Gathered(false, s)
  {
    if s != [] {
      var front, last := s[..|s| - 1], s[|s| - 1];
      assert last in s && forall x | x in front :: x in s;
      assert forall x | x in s :: x in front || x == last;
      ExcessesAtMost(front);
    }
  }

  /** They lose as much as the whole exactly when it has nothing to lose or one part is the whole. */
  lemma {:induction false} ExcessesAgree(s: seq<int>, whole: int)
    requires (forall x | x in s :: 0 <= x) && Gathered(false, s) <= whole
    ensures Excesses(s) == Excess(whole) <==> whole <= CLAMP || whole in s
  {
    ExcessesAtMost(s);
    if s != [] && whole > CLAMP {
      var front, last := s[..|s| - 1], s[|s| - 1];
      assert last in s && forall x | x in front :: x in s;
      assert forall x | x in s :: x in front || x == last;
      ExcessesAtMost(front);
      ExcessesAgree(front, whole);
    }
  }

  function Single(k: Counter, v: int): Usage {
    Usage([k], map[k := v])
  }

  lemma FirstMerge(k: Counter, v: nat)
    requires v <= CLAMP
    ensures Stored(Single(k, v)) && Merged(NO_USAGE, Single(k, v)) == Single(k, v)
  {
    assert NO_USAGE.values.Keys == {} && Fresh([k], {}) == [k];
    assert Bounded(NO_USAGE) == NO_USAGE && Bounded(Single(k, v)) == Single(k, v);
    assert Joined(NO_USAGE, Single(k, v)).values == Single(k, v).values;
  }

  lemma MergeSingles(k: Counter, a: nat, b: nat)
    requires !Peak(k)
    ensures Merged(Single(k, a), Single(k, b)) == Single(k, Clamped(a) + Clamped(b))
  {
    var u, v := Single(k, Clamped(a)), Single(k, Clamped(b));
    assert Bounded(Single(k, a)) == u && Bounded(Single(k, b)) == v;
    assert u.values.Keys == v.values.Keys == {k};
    assert Fresh([k], {k}) == [];
    assert Joined(u, v).values == map[k := Clamped(a) + Clamped(b)];
  }
}
