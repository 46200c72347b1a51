/** The compiled-pattern cache under concurrent use
    (policyeval/conditions_evaluators.go).  A call that misses compiles its
    pattern and takes the lock.  Below the limit it counts the pattern; at the
    limit it first walks the cache and deletes keys one at a time, still under the
    lock.  It stores the pattern after releasing the lock, and a store takes no
    lock, so stores of other calls land at any time, also during the walk.  A
    cached entry is determined by its pattern, so the cache is the set of patterns
    it holds. */
module RegexCacheRace {
  import opened Verdicts
  import opened Conditions

  type Id = nat

  /** A walk in progress: the call that runs it and its pattern; the keys it has
      still to visit, which are those present when it began; and, as history, the
      patterns that were counted but not stored when it began.  A key stored during
      the walk may or may not be visited. */
  datatype Walk = Walk(c: Id, pattern: string, left: set<string>, waiting: set<string>)

  /** `counted` and `carried` are history: the patterns counted since the last
      clear, and those that were counted but not stored when that clear began. */
  datatype State = State(
    cache: set<string>,
    count: nat,
    walk: Option<Walk>,
    pending: map<Id, string>,
    counted: set<string>,
    carried: set<string>)

  datatype Step =
    | Count(c: Id, pattern: string)
    | BeginClear(c: Id, pattern: string)
    | Delete(key: string)
    | EndClear
    | Store(c: Id)

  const Init := State({}, 0, None, map[], {}, {})

  predicate Enabled(s: State, e: Step) {
    match e
    case Count(c, _) => s.walk.None? && c !in s.pending && s.count < MaxCached
    case BeginClear(c, _) => s.walk.None? && c !in s.pending && s.count >= MaxCached
    case Delete(key) => s.walk.Some? && key in s.cache
    case EndClear => s.walk.Some? && s.walk.value.left == {} && s.walk.value.c !in s.pending
    case Store(c) => c in s.pending
  }

  function Apply(s: State, e: Step): State
    requires Enabled(s, e)
  {
    match e
    case Count(c, pattern) =>
      s.(count := s.count + 1, pending := s.pending[c := pattern], counted := s.counted + {pattern})
    case BeginClear(c, pattern) => s.(walk := Some(Walk(c, pattern, s.cache, s.pending.Values)))
    case Delete(key) =>
      s.(cache := s.cache - {key}, walk := Some(s.walk.value.(left := s.walk.value.left - {key})))
    case EndClear =>
      var w := s.walk.value;
      State(s.cache, 1, None, s.pending[w.c := w.pattern], {w.pattern}, w.waiting)
    case Store(c) => s.(cache := s.cache + {s.pending[c]}, pending := s.pending - {c})
  }

  /** Calls between taking the lock and having stored. */
  function InFlight(s: State): nat {
    |s.pending| + if s.walk.Some? then 1 else 0
  }

  predicate Fits(s: State, e: Step, width: nat) {
    Enabled(s, e) && InFlight(Apply(s, e)) <= width
  }

  /** The state after the steps, with never more than `width` calls in flight; None
      when a step is not possible. */
  function After(steps: seq<Step>, width: nat): Option<State> {
    if steps == [] then Some(Init)
    else
      var s, e := After(steps[..|steps| - 1], width), steps[|steps| - 1];
      if s.Some? && Fits(s.value, e, width) then Some(Apply(s.value, e)) else None
  }

  ghost predicate Reachable(s: State, width: nat) {
    exists steps: seq<Step> :: After(steps, width) == Some(s)
  }

  // --- The bound --------------------------------------------------------------------------------

  ghost function Others(width: nat): nat {
    if width == 0 then 0 else width - 1
  }

  /** A walk leaves at most what it has still to visit and what was waiting when it
      began. */
  ghost predicate WalkInv(s: State, width: nat) {
    s.walk.Some? ==>
      var w := s.walk.value;
      && s.cache <= w.left + w.waiting
      && s.pending.Values <= w.waiting
      && |w.waiting| <= Others(width)
  }

  ghost predicate Inv(s: State, width: nat) {
    && s.cache <= s.counted + s.carried
    && s.pending.Values <= s.counted + s.carried
    && |s.counted| <= s.count <= MaxCached
    && |s.carried| <= Others(width)
    && WalkInv(s, width)
  }

  lemma {:induction false} SubsetSize(a: set<string>, b: set<string>)
    requires a <= b
    ensures |a| <= |b|
    decreases a
  {
    if a != {} {
      var x :| x in a;
      SubsetSize(a - {x}, b - {x});
    }
  }

  lemma {:induction false} ValuesAreFew(pending: map<Id, string>)
    ensures |pending.Values| <= |pending|
    decreases |pending|
  {
    if pending != map[] {
      var c :| c in pending;
      var rest := pending - {c};
      assert pending == rest[c := pending[c]];
      ValuesAreFew(rest);
      ValuesAfter(rest, c, pending[c]);
      SubsetSize(pending.Values, rest.Values + {pending[c]});
      assert |pending| == |rest| + 1 by {
        assert pending.Keys == rest.Keys + {c};
      }
    }
  }

  lemma ValuesAfter(pending: map<Id, string>, c: Id, pattern: string)
    ensures pending[c := pattern].Values <= pending.Values + {pattern}
  {
    var next := pending[c := pattern];
    forall v | v in next.Values
      ensures v in pending.Values + {pattern}
    {
      var d :| d in next && next[d] == v;
      if d != c {
        assert pending[d] == v;
      }
    }
  }

  lemma ValuesWithout(pending: map<Id, string>, c: Id)
    ensures (pending - {c}).Values <= pending.Values
  {
    forall v | v in (pending - {c}).Values
      ensures v in pending.Values
    {
      var d :| d in pending - {c} && (pending - {c})[d] == v;
      assert pending[d] == v;
    }
  }

  lemma CountKeepsInv(s: State, c: Id, pattern: string, width: nat)
    requires Inv(s, width) && Enabled(s, Count(c, pattern))
    ensures Inv(Apply(s, Count(c, pattern)), width)
  {
    ValuesAfter(s.pending, c, pattern);
  }

  lemma BeginKeepsInv(s: State, c: Id, pattern: string, width: nat)
    requires Inv(s, width) && Fits(s, BeginClear(c, pattern), width)
    ensures Inv(Apply(s, BeginClear(c, pattern)), width)
  {
    ValuesAreFew(s.pending);
  }

  lemma EndKeepsInv(s: State, width: nat)
    requires Inv(s, width) && Enabled(s, EndClear)
    ensures Inv(Apply(s, EndClear), width)
  {
    ValuesAfter(s.pending, s.walk.value.c, s.walk.value.pattern);
  }

  lemma StoreKeepsInv(s: State, c: Id, width: nat)
    requires Inv(s, width) && Enabled(s, Store(c))
    ensures Inv(Apply(s, Store(c)), width)
  {
    assert s.pending[c] in s.pending.Values;
    ValuesWithout(s.pending, c);
  }

  lemma StepKeepsInv(s: State, e: Step, width: nat)
    requires Inv(s, width) && Fits(s, e, width)
    ensures Inv(Apply(s, e), width)
  {
    match e
    case Count(c, pattern) => CountKeepsInv(s, c, pattern, width);
    case BeginClear(c, pattern) => BeginKeepsInv(s, c, pattern, width);
    case Delete(key) =>
    case EndClear => EndKeepsInv(s, width);
    case Store(c) => StoreKeepsInv(s, c, width);
  }

  lemma {:induction false} RunInv(steps: seq<Step>, width: nat)
    ensures After(steps, width).Some? ==> Inv(After(steps, width).value, width)
  {
    if steps != [] {
      var init, e := steps[..|steps| - 1], steps[|steps| - 1];
      RunInv(init, width);
      var s := After(init, width);
      if s.Some? && Fits(s.value, e, width) {
        StepKeepsInv(s.value, e, width);
      }
    }
  }

  /** In every interleaving with at most `width` calls between taking the lock and
      having stored, the cache never holds more than MaxCached + width - 1 patterns. */
  lemma CacheBound(s: State, width: nat)
    requires Reachable(s, width)
    ensures |s.cache| <= MaxCached + Others(width)
  {
    var steps: seq<Step> :| After(steps, width) == Some(s);
    RunInv(steps, width);
    SubsetSize(s.cache, s.counted + s.carried);
  }

  // --- The bound is attained ------------------------------------------------------------------

  /** Pairwise different patterns. */
  function Pattern(i: nat): (s: string)
    ensures |s| == i
  {
    seq(i, _ => 'a')
  }

  function Patterns(from: nat, n: nat): set<string> {
    if n == 0 then {} else Patterns(from, n - 1) + {Pattern(from + n - 1)}
  }

  lemma {:induction false} PatternsCount(from: nat, n: nat)
    ensures |Patterns(from, n)| == n
    ensures forall p :: p in Patterns(from, n) ==> from <= |p| < from + n
  {
    if n > 0 {
      PatternsCount(from, n - 1);
    }
  }

  /** A property of the initial state that every step within `width` keeps. */
  ghost predicate Closed(reached: State -> bool, width: nat) {
    reached(Init) && forall s, e :: reached(s) && Fits(s, e, width) ==> reached(Apply(s, e))
  }

  lemma StepReachable(reached: State -> bool, s: State, e: Step, width: nat)
    requires Closed(reached, width) && reached(s) && Fits(s, e, width)
    ensures reached(Apply(s, e))
  {
  }

  /** One more pattern counted and stored by call 0. */
  function Grown(s: State, pattern: string): State {
    s.(cache := s.cache + {pattern}, count := s.count + 1, counted := s.counted + {pattern})
  }

  lemma GrownReachable(reached: State -> bool, s: State, pattern: string, width: nat)
    requires Closed(reached, width)
    requires reached(s) && s.walk.None? && 0 !in s.pending && |s.pending| < width && s.count < MaxCached
    ensures reached(Grown(s, pattern))
  {
    StepReachable(reached, s, Count(0, pattern), width);
    var u := Apply(s, Count(0, pattern));
    assert u.pending - {0} == s.pending;
    StepReachable(reached, u, Store(0), width);
    assert Apply(u, Store(0)) == Grown(s, pattern);
  }

  /** n different patterns, each counted and stored by call 0 before the next. */
  function Filled(s: State, from: nat, n: nat): State {
    s.(cache := s.cache + Patterns(from, n), count := s.count + n, counted := s.counted + Patterns(from, n))
  }

  lemma FilledGrows(s: State, from: nat, n: nat)
    ensures Grown(Filled(s, from, n), Pattern(from + n)) == Filled(s, from, n + 1)
  {
    var ps, p := Patterns(from, n), {Pattern(from + n)};
    assert Patterns(from, n + 1) == ps + p;
    assert s.cache + ps + p == s.cache + (ps + p);
    assert s.counted + ps + p == s.counted + (ps + p);
  }

  lemma FillOneMore(reached: State -> bool, s: State, from: nat, n: nat, width: nat)
    requires Closed(reached, width)
    requires reached(Filled(s, from, n))
    requires s.walk.None? && 0 !in s.pending && |s.pending| < width && s.count + n < MaxCached
    ensures reached(Filled(s, from, n + 1))
  {
    GrownReachable(reached, Filled(s, from, n), Pattern(from + n), width);
    FilledGrows(s, from, n);
  }

  lemma FillReachable(reached: State -> bool, s: State, from: nat, n: nat, width: nat)
    requires Closed(reached, width)
    requires reached(s) && s.walk.None? && 0 !in s.pending && |s.pending| < width && s.count + n <= MaxCached
    ensures reached(Filled(s, from, n))
  {
    assert Filled(s, from, 0) == s;
    for i := 0 to n
      invariant reached(Filled(s, from, i))
    {
      FillOneMore(reached, s, from, i, width);
    }
  }

  /** The walk of s has visited everything and nothing was stored meanwhile. */
  function Drained(s: State): State
    requires s.walk.Some?
  {
    s.(cache := {}, walk := Some(s.walk.value.(left := {})))
  }

  lemma {:induction false} DrainReachable(reached: State -> bool, s: State, width: nat)
    requires Closed(reached, width)
    requires reached(s) && s.walk.Some? && s.walk.value.left == s.cache && InFlight(s) <= width
    ensures reached(Drained(s))
    decreases s.cache
  {
    if s.cache != {} {
      var key :| key in s.cache;
      StepReachable(reached, s, Delete(key), width);
      DrainReachable(reached, Apply(s, Delete(key)), width);
    } else {
      assert Drained(s) == s;
    }
  }

  /** Call c clears a full cache and counts its own pattern, storing nothing. */
  function Cleared(s: State, c: Id, pattern: string): State {
    State({}, 1, None, s.pending[c := pattern], {pattern}, s.pending.Values)
  }

  lemma ClearReachable(reached: State -> bool, s: State, c: Id, pattern: string, width: nat)
    requires Closed(reached, width)
    requires reached(s) && s.walk.None? && c !in s.pending && s.count >= MaxCached && |s.pending| < width
    ensures reached(Cleared(s, c, pattern))
  {
    StepReachable(reached, s, BeginClear(c, pattern), width);
    var t := Apply(s, BeginClear(c, pattern));
    DrainReachable(reached, t, width);
    StepReachable(reached, Drained(t), EndClear, width);
    assert Apply(Drained(t), EndClear) == Cleared(s, c, pattern);
  }

  /** Calls 1 to n have counted patterns of their own length and stalled. */
  function Stalled(n: nat): map<Id, string> {
    if n == 0 then map[] else Stalled(n - 1)[n := Pattern(n)]
  }

  lemma {:induction false} StalledFacts(n: nat)
    ensures |Stalled(n)| == n
    ensures forall c :: c in Stalled(n) <==> 1 <= c <= n
    ensures forall c :: c in Stalled(n) ==> Stalled(n)[c] == Pattern(c)
  {
    if n > 0 {
      StalledFacts(n - 1);
    }
  }

  /** Nothing is stored, no walk is on, and calls 1 to n have stalled. */
  ghost predicate AllStalled(reached: State -> bool, s: State, n: nat) {
    reached(s) && s.walk.None? && s.count <= MaxCached && s.cache == {} && s.pending == Stalled(n)
  }

  lemma StalledRoom(n: nat)
    ensures |Stalled(n)| == n && n + 1 !in Stalled(n) && 0 !in Stalled(n)
    ensures Stalled(n + 1) == Stalled(n)[n + 1 := Pattern(n + 1)]
  {
    StalledFacts(n);
  }

  lemma StallByCount(reached: State -> bool, s: State, c: Id, pattern: string, width: nat) returns (t: State)
    requires Closed(reached, width)
    requires reached(s) && s.walk.None? && s.cache == {} && s.count < MaxCached
    requires c !in s.pending && |s.pending| < width
    ensures reached(t) && t.walk.None? && t.count <= MaxCached && t.cache == {} && t.pending == s.pending[c := pattern]
  {
    StepReachable(reached, s, Count(c, pattern), width);
    t := Apply(s, Count(c, pattern));
  }

  lemma StallOneMore(reached: State -> bool, s: State, n: nat, width: nat) returns (t: State)
    requires Closed(reached, width)
    requires AllStalled(reached, s, n) && n < width
    ensures AllStalled(reached, t, n + 1)
  {
    StalledRoom(n);
    if s.count < MaxCached {
      t := StallByCount(reached, s, n + 1, Pattern(n + 1), width);
    } else {
      ClearReachable(reached, s, n + 1, Pattern(n + 1), width);
      t := Cleared(s, n + 1, Pattern(n + 1));
    }
  }

  lemma StallReachable(reached: State -> bool, n: nat, width: nat) returns (s: State)
    requires Closed(reached, width)
    requires n < width
    ensures AllStalled(reached, s, n)
  {
    s := Init;
    for i := 0 to n
      invariant AllStalled(reached, s, i)
    {
      s := StallOneMore(reached, s, i, width);
    }
  }

  /** Call 0 has cleared the cache behind n stalled calls and refilled it. */
  ghost predicate Refilled(reached: State -> bool, s: State, n: nat) {
    reached(s) && s.walk.None? && s.pending == Stalled(n) && s.cache == Patterns(n + 1, MaxCached)
  }

  lemma {:induction false} PatternsFront(from: nat, n: nat)
    ensures Patterns(from, n + 1) == {Pattern(from)} + Patterns(from + 1, n)
  {
    if n > 0 {
      PatternsFront(from, n - 1);
    }
  }

  /** Call 0 fills the count up to the limit. */
  lemma FillUp(reached: State -> bool, s: State, from: nat, width: nat) returns (t: State)
    requires Closed(reached, width)
    requires reached(s) && s.walk.None? && 0 !in s.pending && |s.pending| < width && s.count <= MaxCached
    ensures reached(t) && t.walk.None? && t.pending == s.pending && t.count == MaxCached
  {
    FillReachable(reached, s, from, MaxCached - s.count, width);
    t := Filled(s, from, MaxCached - s.count);
  }

  /** Call 0 clears a full cache, counts its pattern and stores it. */
  lemma ClearAndStore(reached: State -> bool, s: State, pattern: string, width: nat) returns (t: State)
    requires Closed(reached, width)
    requires reached(s) && s.walk.None? && 0 !in s.pending && s.count >= MaxCached && |s.pending| < width
    ensures reached(t) && t.walk.None? && t.pending == s.pending && t.count == 1 && t.cache == {pattern}
  {
    ClearReachable(reached, s, 0, pattern, width);
    var cleared := Cleared(s, 0, pattern);
    StepReachable(reached, cleared, Store(0), width);
    t := Apply(cleared, Store(0));
    assert t.pending == s.pending;
  }

  lemma RefillReachable(reached: State -> bool, n: nat, width: nat) returns (s: State)
    requires Closed(reached, width)
    requires n < width
    ensures Refilled(reached, s, n)
  {
    var stalled := StallReachable(reached, n, width);
    StalledFacts(n);
    var full := FillUp(reached, stalled, n + 1, width);
    var one := ClearAndStore(reached, full, Pattern(n + 1), width);
    FillReachable(reached, one, n + 2, MaxCached - 1, width);
    s := Filled(one, n + 2, MaxCached - 1);
    PatternsFront(n + 1, MaxCached - 1);
  }

  lemma StalledWithout(n: nat)
    requires n > 0
    ensures Stalled(n) - {n} == Stalled(n - 1)
  {
    StalledFacts(n - 1);
  }

  /** The last stalled call stores; the cache held only longer patterns. */
  lemma UnstallOne(reached: State -> bool, s: State, n: nat, width: nat) returns (t: State)
    requires Closed(reached, width)
    requires reached(s) && s.walk.None? && s.pending == Stalled(n) && n > 0 && n <= width
    requires forall p :: p in s.cache ==> |p| > n
    ensures reached(t) && t.walk.None? && t.pending == Stalled(n - 1)
    ensures |t.cache| == |s.cache| + 1 && forall p :: p in t.cache ==> |p| > n - 1
  {
    StalledFacts(n);
    StalledFacts(n - 1);
    StalledWithout(n);
    StepReachable(reached, s, Store(n), width);
    t := Apply(s, Store(n));
    assert t.cache == s.cache + {Pattern(n)} && Pattern(n) !in s.cache;
  }

  lemma UnstallReachable(reached: State -> bool, s: State, n: nat, width: nat) returns (t: State)
    requires Closed(reached, width)
    requires reached(s) && s.walk.None? && s.pending == Stalled(n) && n <= width
    requires forall p :: p in s.cache ==> |p| > n
    ensures reached(t) && |t.cache| == |s.cache| + n
  {
    t := s;
    for i := n downto 0
      invariant reached(t) && t.walk.None? && t.pending == Stalled(i)
      invariant |t.cache| == |s.cache| + (n - i) && forall p :: p in t.cache ==> |p| > i
    {
      t := UnstallOne(reached, t, i + 1, width);
    }
  }

  lemma ReachableIsClosed(width: nat)
    ensures Closed((s: State) => Reachable(s, width), width)
  {
    assert After([], width) == Some(Init);
    forall s, e | Reachable(s, width) && Fits(s, e, width)
      ensures Reachable(Apply(s, e), width)
    {
      var steps: seq<Step> :| After(steps, width) == Some(s);
      assert (steps + [e])[..|steps|] == steps;
      assert After(steps + [e], width) == Some(Apply(s, e));
    }
  }

  lemma AttainedIn(reached: State -> bool, width: nat) returns (t: State)
    requires Closed(reached, width) && width >= 1
    ensures reached(t) && |t.cache| == MaxCached + width - 1
  {
    var n := width - 1;
    var s := RefillReachable(reached, n, width);
    PatternsCount(n + 1, MaxCached);
    t := UnstallReachable(reached, s, n, width);
  }

  /** The bound is exact: for every width some interleaving fills the cache up to
      MaxCached + width - 1.  All but one of the calls count and stall, the other
      clears the cache and refills it, then the stalled ones store. */
  lemma BoundAttained(width: nat)
    requires width >= 1
    ensures exists s :: Reachable(s, width) && |s.cache| == MaxCached + width - 1
  {
    ReachableIsClosed(width);
    var t := AttainedIn((s: State) => Reachable(s, width), width);
    assert Reachable(t, width);
  }

  /** Two overlapping calls are enough to pass the limit. */
  lemma LimitExceeded()
    ensures exists s :: Reachable(s, 2) && |s.cache| == MaxCached + 1
  {
    BoundAttained(2);
  }

  lemma SurvivorIn(reached: State -> bool) returns (t: State)
    requires Closed(reached, 2)
    ensures reached(t) && t.walk.None? && |t.cache| == 1 && t.count == 1 && |t.pending| == 1
  {
    FillReachable(reached, Init, 0, MaxCached - 1, 2);
    var full := Filled(Init, 0, MaxCached - 1);
    var b, a := Pattern(MaxCached), Pattern(MaxCached + 1);
    StepReachable(reached, full, Count(1, b), 2);
    var counted := Apply(full, Count(1, b));
    StepReachable(reached, counted, BeginClear(0, a), 2);
    var walking := Apply(counted, BeginClear(0, a));
    DrainReachable(reached, walking, 2);
    var drained := Drained(walking);
    StepReachable(reached, drained, Store(1), 2);
    var stored := Apply(drained, Store(1));
    assert stored.cache == {b} && stored.pending == map[];
    StepReachable(reached, stored, EndClear, 2);
    t := Apply(stored, EndClear);
    assert t.pending == map[0 := a];
  }

  /** A store can land during the walk and survive it: the count then says one, one
      pattern is cached, and the counted one is still to come. */
  lemma StoreSurvivesWalk()
    ensures exists s :: Reachable(s, 2) && s.walk.None? && |s.cache| == 1 && s.count == 1 && |s.pending| == 1
  {
    ReachableIsClosed(2);
    var t := SurvivorIn((s: State) => Reachable(s, 2));
    assert Reachable(t, 2);
  }
}
