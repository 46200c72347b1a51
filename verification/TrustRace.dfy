/** The trust backend under concurrent evaluations (governance/pipeline.go,
    governance/trust_beta.go).  An evaluation reads its agent's state in stage 1 and
    records an outcome in its deferred block, each under the backend's lock; any
    number of evaluations interleave in between.  What outcome is recorded is left
    open. */
module TrustRace {
  import opened Verdicts
  import Trust

  type Id = nat

  /** The store, and for each evaluation past stage 1 the agent it is about. */
  datatype State = State(store: Trust.States, flights: map<Id, string>)

  datatype Step =
    | Begin(c: Id, agent: string)
    | Record(c: Id, outcome: Trust.Outcome)
    | Leave(c: Id)
    | Reset(agent: string)
    | Terminate(agent: string)

  const Init := State(map[], map[])

  predicate Enabled(s: State, e: Step) {
    match e
    case Begin(c, agent) => c !in s.flights && agent != ""
    case Record(c, _) => c in s.flights
    case Leave(c) => c in s.flights
    case Reset(agent) => agent != ""
    case Terminate(agent) => agent != ""
  }

  function StateOf(s: State, agent: string): TrustState {
    Trust.SnapshotOf(s.store, agent).state
  }

  /** A blocked agent's evaluation ends in stage 1 and records nothing. */
  function Apply(cfg: Trust.Config, s: State, e: Step): State
    requires Enabled(s, e)
  {
    match e
    case Begin(c, agent) => if Blocked(StateOf(s, agent)) then s else s.(flights := s.flights[c := agent])
    case Record(c, o) => State(Trust.Recorded(cfg, s.store, s.flights[c], o), s.flights - {c})
    case Leave(c) => s.(flights := s.flights - {c})
    case Reset(agent) => s.(store := s.store - {agent})
    case Terminate(agent) => s.(store := s.store[agent := Trust.Stored(cfg, s.store, agent).(state := Terminated)])
  }

  /** What each step does besides recording: who is in flight, and what operators do. */
  lemma StepsExact(cfg: Trust.Config, s: State, c: Id, agent: string)
    requires agent != ""
    ensures c !in s.flights ==>
              (c in Apply(cfg, s, Begin(c, agent)).flights <==> StateOf(s, agent) !in {Isolated, Terminated})
    ensures c in s.flights ==> c !in Apply(cfg, s, Leave(c)).flights && Apply(cfg, s, Leave(c)).store == s.store
    ensures c in s.flights ==> c !in Apply(cfg, s, Record(c, Trust.Success)).flights
    ensures StateOf(Apply(cfg, s, Reset(agent)), agent) == Trusted && agent !in Apply(cfg, s, Reset(agent)).store
    ensures StateOf(Apply(cfg, s, Terminate(agent)), agent) == Terminated
    ensures Apply(cfg, s, Reset(agent)).flights == Apply(cfg, s, Terminate(agent)).flights == s.flights
  {
  }

  /** The state after the steps; None when a step is not possible. */
  function After(cfg: Trust.Config, s: State, steps: seq<Step>): Option<State> {
    if steps == [] then Some(s)
    else
      var t, e := After(cfg, s, steps[..|steps| - 1]), steps[|steps| - 1];
      if t.Some? && Enabled(t.value, e) then Some(Apply(cfg, t.value, e)) else None
  }

  lemma AfterAppend(cfg: Trust.Config, s: State, steps: seq<Step>, e: Step)
    ensures var t := After(cfg, s, steps);
            After(cfg, s, steps + [e]) == if t.Some? && Enabled(t.value, e) then Some(Apply(cfg, t.value, e)) else None
  {
    assert (steps + [e])[..|steps|] == steps;
  }

  /** No operator resets or terminates agent. */
  ghost predicate Quiet(steps: seq<Step>, agent: string) {
    forall i :: 0 <= i < |steps| ==> !Administers(steps[i], agent)
  }

  ghost predicate Administers(e: Step, agent: string) {
    (e.Reset? || e.Terminate?) && e.agent == agent
  }

  /** The evaluations of agent past stage 1. */
  ghost function Flying(s: State, agent: string): set<Id> {
    set c | c in s.flights && s.flights[c] == agent
  }

  /** What a step does to the evaluations of agent in flight, while it is blocked. */
  lemma FlightStep(cfg: Trust.Config, s: State, e: Step, agent: string)
    requires Enabled(s, e) && Blocked(StateOf(s, agent))
    ensures var t := Apply(cfg, s, e);
            if (e.Record? || e.Leave?) && s.flights[e.c] == agent
            then e.c in Flying(s, agent) && Flying(t, agent) == Flying(s, agent) - {e.c}
            else Flying(t, agent) == Flying(s, agent)
  {
    var t := Apply(cfg, s, e);
    if e.Begin? {
      assert forall c :: c in t.flights && c != e.c ==> c in s.flights && t.flights[c] == s.flights[c];
    }
  }

  lemma RecordOnlyOwn(cfg: Trust.Config, s: State, e: Step, agent: string)
    requires Enabled(s, e) && agent in s.store && !Administers(e, agent)
    ensures var t := Apply(cfg, s, e);
            && agent in t.store
            && t.store[agent] == (if e.Record? && s.flights[e.c] == agent then Trust.Fold(cfg, s.store[agent], e.outcome)
                                  else s.store[agent])
  {
  }

  // --- How much can still change ----------------------------------------------------------------

  /** Interactions recorded so far, and those still possible while agent is blocked. */
  ghost function Potential(s: State, agent: string): nat
    requires agent in s.store
  {
    s.store[agent].interactions + |Flying(s, agent)|
  }

  /** agent is blocked before every one of the steps. */
  ghost predicate BlockedDuring(cfg: Trust.Config, s: State, steps: seq<Step>, agent: string) {
    forall i :: 0 <= i < |steps| ==>
      After(cfg, s, steps[..i]).Some? && Blocked(StateOf(After(cfg, s, steps[..i]).value, agent))
  }

  lemma PotentialStep(cfg: Trust.Config, s: State, e: Step, agent: string)
    requires Enabled(s, e) && agent in s.store && Blocked(s.store[agent].state) && !Administers(e, agent)
    ensures agent in Apply(cfg, s, e).store && Potential(Apply(cfg, s, e), agent) <= Potential(s, agent)
  {
    FlightStep(cfg, s, e, agent);
    RecordOnlyOwn(cfg, s, e, agent);
  }

  /** While an agent stays blocked its record changes at most as often as it had
      evaluations in flight when it was blocked. */
  lemma {:induction false} FlightsBoundChanges(cfg: Trust.Config, s: State, steps: seq<Step>, agent: string)
    requires agent in s.store && Quiet(steps, agent) && BlockedDuring(cfg, s, steps, agent)
    requires After(cfg, s, steps).Some?
    ensures var t := After(cfg, s, steps).value;
            && agent in t.store && Potential(t, agent) <= Potential(s, agent)
            && t.store[agent].interactions <= s.store[agent].interactions + |Flying(s, agent)|
  {
    if steps != [] {
      var init, n := steps[..|steps| - 1], |steps| - 1;
      assert forall i :: 0 <= i < |init| ==> init[..i] == steps[..i];
      FlightsBoundChanges(cfg, s, init, agent);
      PotentialStep(cfg, After(cfg, s, init).value, steps[n], agent);
    }
  }

  // --- Whether evaluations in flight can lift an isolated agent ------------------------------------

  /** The most one recorded outcome adds to alpha. */
  function BestGain(cfg: Trust.Config): real {
    if cfg.successWeight >= cfg.partialAlpha then cfg.successWeight else cfg.partialAlpha
  }

  /** The score if every one of n outcomes were the best possible. */
  function BestScore(cfg: Trust.Config, b: Trust.Beta, n: nat): real {
    Trust.Score(b.alpha + Trust.Repeated(BestGain(cfg), n), b.beta)
  }

  /** agent is isolated, and stays below theta even if all its evaluations in flight
      succeed. */
  ghost predicate Doomed(cfg: Trust.Config, s: State, agent: string) {
    && agent in s.store && s.store[agent].state == Isolated
    && s.store[agent].alpha > 0.0 && s.store[agent].beta > 0.0
    && BestScore(cfg, s.store[agent], |Flying(s, agent)|) < cfg.theta
  }

  lemma BelowTheta(alpha: real, beta: real, theta: real)
    requires alpha > 0.0 && beta > 0.0
    ensures Trust.Score(alpha, beta) < theta <==> alpha < theta * alpha + theta * beta
  {
    Trust.BelowFraction(alpha, beta, theta, 1.0);
    assert theta / 1.0 == theta;
    assert theta * (alpha + beta) == theta * alpha + theta * beta;
  }

  /** x - k * x grows with x when k is at most one. */
  lemma RestMono(k: real, x: real, y: real)
    requires k <= 1.0 && x <= y
    ensures x - k * x <= y - k * y
  {
    Trust.MulMono(1.0 - k, x, y);
    assert (1.0 - k) * x == x - k * x;
    assert (1.0 - k) * y == y - k * y;
  }

  /** Less alpha and more beta cannot lift a score over theta. */
  lemma ScoreMono(a: real, more: real, e: real, less: real, theta: real)
    requires 0.0 < a <= more && 0.0 < less <= e && theta > 0.0
    requires Trust.Score(more, less) < theta
    ensures Trust.Score(a, e) < theta
  {
    BelowTheta(more, less, theta);
    BelowTheta(a, e, theta);
    Trust.MulMono(theta, less, e);
    if theta <= 1.0 {
      RestMono(theta, a, more);
    } else {
      Trust.StrictMul(a, 1.0, theta);
      Trust.StrictMul(theta, 0.0, e);
    }
  }

  lemma {:induction false} RepeatedGrows(w: real, n: nat)
    requires w > 0.0
    ensures Trust.Repeated(w, n) >= 0.0
    ensures n > 0 ==> Trust.Repeated(w, n) == Trust.Repeated(w, n - 1) + w
  {
    if n > 0 {
      RepeatedGrows(w, n - 1);
    }
  }

  /** One evaluation fewer in flight, whatever it recorded. */
  lemma OneLanded(cfg: Trust.Config, b: Trust.Beta, o: Trust.Outcome, n: nat)
    requires Trust.Positive(cfg) && cfg.theta > 0.0 && n > 0
    requires b.state == Isolated && b.alpha > 0.0 && b.beta > 0.0 && BestScore(cfg, b, n) < cfg.theta
    ensures var b' := Trust.Fold(cfg, b, o);
            b'.state == Isolated && b'.alpha > 0.0 && b'.beta > 0.0 && BestScore(cfg, b', n - 1) < cfg.theta
  {
    var g, b' := BestGain(cfg), Trust.Fold(cfg, b, o);
    RepeatedGrows(g, n);
    RepeatedGrows(g, n - 1);
    Trust.DegradedWeighsMore(cfg);
    var best, rest := b.alpha + Trust.Repeated(g, n), Trust.Repeated(g, n - 1);
    assert b'.alpha <= b.alpha + g && b'.beta >= b.beta;
    ScoreMono(b'.alpha + rest, best, b'.beta, b.beta, cfg.theta);
    ScoreMono(b'.alpha, best, b'.beta, b.beta, cfg.theta);
  }

  lemma DoomedStep(cfg: Trust.Config, s: State, e: Step, agent: string)
    requires Trust.Positive(cfg) && cfg.theta > 0.0
    requires Doomed(cfg, s, agent) && Enabled(s, e) && !Administers(e, agent)
    ensures Doomed(cfg, Apply(cfg, s, e), agent)
  {
    FlightStep(cfg, s, e, agent);
    RecordOnlyOwn(cfg, s, e, agent);
    if (e.Record? || e.Leave?) && s.flights[e.c] == agent {
      OneLanded(cfg, s.store[agent], if e.Record? then e.outcome else Trust.Neutral, |Flying(s, agent)|);
    }
  }

  /** Too few evaluations in flight: the agent stays isolated in every interleaving,
      until an operator intervenes. */
  lemma {:induction false} TooFewToLift(cfg: Trust.Config, s: State, steps: seq<Step>, agent: string)
    requires Trust.Positive(cfg) && cfg.theta > 0.0 && Doomed(cfg, s, agent) && Quiet(steps, agent)
    ensures After(cfg, s, steps).Some? ==> Doomed(cfg, After(cfg, s, steps).value, agent)
  {
    if steps != [] {
      var init, e := steps[..|steps| - 1], steps[|steps| - 1];
      TooFewToLift(cfg, s, init, agent);
      var t := After(cfg, s, init);
      if t.Some? && Enabled(t.value, e) {
        DoomedStep(cfg, t.value, e, agent);
      }
    }
  }

  /** Some interleaving without operator lifts agent. */
  ghost predicate Liftable(cfg: Trust.Config, s: State, agent: string) {
    exists steps :: Quiet(steps, agent) && Lifts(cfg, s, steps, agent)
  }

  ghost predicate Lifts(cfg: Trust.Config, s: State, steps: seq<Step>, agent: string) {
    After(cfg, s, steps).Some? && !Blocked(StateOf(After(cfg, s, steps).value, agent))
  }

  /** n evaluations of agent have succeeded since b. */
  ghost predicate Succeeded(cfg: Trust.Config, t: State, agent: string, b: Trust.Beta, n: nat) {
    && agent in t.store && t.store[agent].state != Terminated
    && t.store[agent].alpha == b.alpha + Trust.Repeated(cfg.successWeight, n) && t.store[agent].beta == b.beta
    && (n > 0 ==> t.store[agent].state == Trust.StateFromScore(Trust.ScoreOf(t.store[agent]), cfg.theta, cfg.degraded))
  }

  lemma OneSucceeds(cfg: Trust.Config, t: State, agent: string, b: Trust.Beta, n: nat, c: Id)
    requires Succeeded(cfg, t, agent, b, n) && c in Flying(t, agent)
    ensures Enabled(t, Record(c, Trust.Success))
    ensures var u := Apply(cfg, t, Record(c, Trust.Success));
            Succeeded(cfg, u, agent, b, n + 1) && Flying(u, agent) == Flying(t, agent) - {c}
  {
  }

  lemma AllSucceed(cfg: Trust.Config, s: State, agent: string) returns (steps: seq<Step>)
    requires agent in s.store && s.store[agent].state != Terminated
    ensures Quiet(steps, agent) && After(cfg, s, steps).Some?
    ensures Succeeded(cfg, After(cfg, s, steps).value, agent, s.store[agent], |Flying(s, agent)|)
  {
    steps := [];
    var t := s;
    var b, n := s.store[agent], |Flying(s, agent)|;
    for i := 0 to n
      invariant Quiet(steps, agent) && After(cfg, s, steps) == Some(t)
      invariant Succeeded(cfg, t, agent, b, i) && |Flying(t, agent)| == n - i
    {
      var c :| c in Flying(t, agent);
      OneSucceeds(cfg, t, agent, b, i, c);
      AfterAppend(cfg, s, steps, Record(c, Trust.Success));
      steps := steps + [Record(c, Trust.Success)];
      t := Apply(cfg, t, Record(c, Trust.Success));
    }
  }

  /** The exact condition, where a success weighs at least as much as a partial
      outcome: an isolated agent can be lifted without an operator if and only if
      its score would reach theta should all its evaluations in flight succeed.  With
      none in flight isolation is absorbing. */
  lemma LiftableExactly(cfg: Trust.Config, s: State, agent: string)
    requires Trust.Positive(cfg) && cfg.theta > 0.0 && cfg.successWeight >= cfg.partialAlpha
    requires agent in s.store && s.store[agent].alpha > 0.0 && s.store[agent].beta > 0.0
    requires s.store[agent].state == Isolated && Trust.ScoreOf(s.store[agent]) < cfg.theta
    ensures Liftable(cfg, s, agent)
       <==> Trust.Score(s.store[agent].alpha + Trust.Repeated(cfg.successWeight, |Flying(s, agent)|), s.store[agent].beta) >= cfg.theta
  {
    var b, n := s.store[agent], |Flying(s, agent)|;
    if BestScore(cfg, b, n) < cfg.theta {
      forall steps | Quiet(steps, agent)
        ensures !Lifts(cfg, s, steps, agent)
      {
        TooFewToLift(cfg, s, steps, agent);
      }
    } else {
      var steps := AllSucceed(cfg, s, agent);
      assert n > 0;
      assert Lifts(cfg, s, steps, agent);
    }
  }

  /** Termination is absorbing however many evaluations are in flight. */
  lemma {:induction false} TerminatedStays(cfg: Trust.Config, s: State, steps: seq<Step>, agent: string)
    requires agent in s.store && s.store[agent].state == Terminated && Quiet(steps, agent)
    ensures After(cfg, s, steps).Some? ==>
              agent in After(cfg, s, steps).value.store && After(cfg, s, steps).value.store[agent].state == Terminated
  {
    if steps != [] {
      var init, e := steps[..|steps| - 1], steps[|steps| - 1];
      TerminatedStays(cfg, s, init, agent);
      var t := After(cfg, s, init);
      if t.Some? && Enabled(t.value, e) {
        RecordOnlyOwn(cfg, t.value, e, agent);
      }
    }
  }

  // --- A lift ------------------------------------------------------------------------------------

  const Agent := "a"

  /** Three evaluations pass stage 1 together; two of them are denied. */
  function Isolating(): State {
    State(map[Agent := Trust.Beta(1.0, 4.0, 2, Isolated)], map[3 := Agent])
  }

  const Begun: seq<Step> := [Begin(1, Agent), Begin(2, Agent), Begin(3, Agent)]

  const ThreeTogether: seq<Step> := Begun + [Record(1, Trust.Failure), Record(2, Trust.Failure)]

  const Flight: State := State(map[], map[1 := Agent, 2 := Agent, 3 := Agent])
  const OneDenied: State := State(map[Agent := Trust.Beta(1.0, 2.0, 1, Evaluating)], map[2 := Agent, 3 := Agent])

  lemma ThreeBegin()
    ensures After(Trust.Defaults, Init, Begun) == Some(Flight)
  {
    var cfg := Trust.Defaults;
    var b1, b2, b3 := Begin(1, Agent), Begin(2, Agent), Begin(3, Agent);
    AfterAppend(cfg, Init, [], b1);
    assert [] + [b1] == [b1];
    AfterAppend(cfg, Init, [b1], b2);
    assert [b1] + [b2] == [b1, b2];
    AfterAppend(cfg, Init, [b1, b2], b3);
    assert [b1, b2] + [b3] == [b1, b2, b3];
  }

  lemma FirstDenial()
    ensures Enabled(Flight, Record(1, Trust.Failure))
    ensures Apply(Trust.Defaults, Flight, Record(1, Trust.Failure)) == OneDenied
  {
    assert Trust.Score(1.0, 2.0) * 3.0 == 1.0;
    assert Flight.flights - {1} == OneDenied.flights;
  }

  lemma SecondDenial()
    ensures Enabled(OneDenied, Record(2, Trust.Failure))
    ensures Apply(Trust.Defaults, OneDenied, Record(2, Trust.Failure)) == Isolating()
  {
    assert Trust.Score(1.0, 4.0) == 0.2;
    assert OneDenied.flights - {2} == Isolating().flights;
  }

  lemma AfterTwo(cfg: Trust.Config, s: State, steps: seq<Step>, d: Step, e: Step, t: State, u: State, v: State)
    requires After(cfg, s, steps) == Some(t)
    requires Enabled(t, d) && Apply(cfg, t, d) == u && Enabled(u, e) && Apply(cfg, u, e) == v
    ensures After(cfg, s, steps + [d, e]) == Some(v)
  {
    AfterAppend(cfg, s, steps, d);
    AfterAppend(cfg, s, steps + [d], e);
    assert steps + [d] + [e] == steps + [d, e];
  }

  lemma ThreeTogetherIsolate()
    ensures After(Trust.Defaults, Init, ThreeTogether) == Some(Isolating())
  {
    ThreeBegin();
    FirstDenial();
    SecondDenial();
    AfterTwo(Trust.Defaults, Init, Begun, Record(1, Trust.Failure), Record(2, Trust.Failure), Flight, OneDenied, Isolating());
  }

  /** From the empty store, with default settings: two denials isolate the agent, and
      the success of the third evaluation, in flight all along, lifts it again. */
  lemma FlightLifts()
    ensures After(Trust.Defaults, Init, ThreeTogether) == Some(Isolating()) && StateOf(Isolating(), Agent) == Isolated
    ensures Lifts(Trust.Defaults, Isolating(), [Record(3, Trust.Success)], Agent)
  {
    ThreeTogetherIsolate();
    assert Trust.Score(2.0, 4.0) * 6.0 == 2.0;
    assert [] + [Record(3, Trust.Success)] == [Record(3, Trust.Success)];
    AfterAppend(Trust.Defaults, Isolating(), [], Record(3, Trust.Success));
  }
}
