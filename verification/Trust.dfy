/** The Beta trust circuit breaker (governance/trust_beta.go,
    governance/circuit_breaker.go, governance/trust_actions.go,
    governance/trust_config.go) and its integer checker
    (governance/proofreceipt/trust.go).  Scores are exact reals. */
module Trust {
  import opened Verdicts

  datatype Config = Config(
    theta: real,
    degraded: real,
    initialAlpha: real,
    initialBeta: real,
    successWeight: real,
    failureWeight: real,
    partialAlpha: real,
    partialBeta: real,
    multiplier: real)

  function OrDefault(x: real, d: real): real {
    if x == 0.0 then d else x
  }

  function WithDefaults(c: Config): Config {
    Config(
      OrDefault(c.theta, 0.3),
      OrDefault(c.degraded, 0.6),
      OrDefault(c.initialAlpha, 1.0),
      OrDefault(c.initialBeta, 1.0),
      OrDefault(c.successWeight, 1.0),
      OrDefault(c.failureWeight, 1.0),
      OrDefault(c.partialAlpha, 0.5),
      OrDefault(c.partialBeta, 0.5),
      OrDefault(c.multiplier, 2.0))
  }

  /** The configuration with nothing set. */
  const Defaults := WithDefaults(Config(0.0, 0.0, 0.0, 0.0, 0.0, 0.0, 0.0, 0.0, 0.0))

  datatype Outcome = Success | Failure | Partial | Neutral

  function OutcomeOf(a: Action): Outcome {
    match a
    case Allow => Success
    case Deny => Failure
    case Warn => Neutral
    case _ => Partial
  }

  function OutcomeText(o: Outcome): string {
    match o
    case Success => "success"
    case Failure => "failure"
    case Partial => "partial"
    case Neutral => "neutral"
  }

  function Score(alpha: real, beta: real): real {
    if alpha + beta <= 0.0 then 0.0 else alpha / (alpha + beta)
  }

  function StateFromScore(score: real, isolation: real, degraded: real): TrustState {
    if score < isolation then Isolated
    else if score < degraded then Evaluating
    else Trusted
  }

  datatype Beta = Beta(alpha: real, beta: real, interactions: nat, state: TrustState)

  function ScoreOf(b: Beta): real {
    Score(b.alpha, b.beta)
  }

  function Fresh(cfg: Config): Beta {
    Beta(cfg.initialAlpha, cfg.initialBeta, 0, Trusted)
  }

  /** What a failure weighs while the agent is degraded. */
  function DegradedWeight(cfg: Config): real {
    cfg.failureWeight * cfg.multiplier
  }

  function AlphaGain(cfg: Config, o: Outcome): real {
    if o == Success then cfg.successWeight else if o == Partial then cfg.partialAlpha else 0.0
  }

  /** What outcome o adds to beta when the agent was in state s: w for a failure,
      d for one while degraded, h for a partial outcome. */
  function BetaGain(w: real, d: real, h: real, s: TrustState, o: Outcome): real {
    if o == Failure then (if s == Evaluating then d else w) else if o == Partial then h else 0.0
  }

  /** One recorded outcome. */
  function Fold(cfg: Config, b: Beta, o: Outcome): Beta {
    if o == Neutral then b
    else
      var alpha := b.alpha + AlphaGain(cfg, o);
      var beta := b.beta + BetaGain(cfg.failureWeight, DegradedWeight(cfg), cfg.partialBeta, b.state, o);
      Beta(alpha, beta, b.interactions + 1,
           if b.state == Terminated then Terminated else StateFromScore(Score(alpha, beta), cfg.theta, cfg.degraded))
  }

  type States = map<string, Beta>

  function Stored(cfg: Config, states: States, agent: string): Beta {
    if agent in states then states[agent] else Fresh(cfg)
  }

  /** The store after recording outcome o for agent. */
  function Recorded(cfg: Config, states: States, agent: string, o: Outcome): States {
    if o == Neutral then states else states[agent := Fold(cfg, Stored(cfg, states, agent), o)]
  }

  datatype Snapshot = Snapshot(state: TrustState, score: real, alpha: real, beta: real, interactions: nat, known: bool)

  function Snap(b: Beta): Snapshot {
    Snapshot(b.state, ScoreOf(b), b.alpha, b.beta, b.interactions, true)
  }

  const DefaultSnapshot := Snapshot(Trusted, 1.0, 0.0, 0.0, 0, false)

  function SnapshotOf(states: States, agent: string): Snapshot {
    if agent in states then Snap(states[agent]) else DefaultSnapshot
  }

  datatype Update = Update(before: Snapshot, after: Snapshot, outcome: Outcome, transition: bool)

  function UpdateOf(cfg: Config, states: States, agent: string, o: Outcome): Update {
    if o == Neutral then
      var s := SnapshotOf(states, agent);
      Update(s, s, o, false)
    else
      var b := Stored(cfg, states, agent);
      var b' := Fold(cfg, b, o);
      Update(Snap(b), Snap(b'), o, b.state != b'.state)
  }

  /** The in-process backend.  None is the error for an empty agent id. */
  class StandaloneTrustBackend {
    const cfg: Config
    var states: States

    constructor (c: Config)
      ensures cfg == WithDefaults(c) && states == map[]
    {
      cfg := WithDefaults(c);
      states := map[];
    }

    method GetAgentTrust(agent: string) returns (r: Option<Snapshot>)
      ensures r == (if agent == "" then None else Some(SnapshotOf(states, agent)))
    {
      if agent == "" {
        return None;
      }
      if agent !in states {
        return Some(DefaultSnapshot);
      }
      return Some(Snap(states[agent]));
    }

    method CheckAgentState(agent: string) returns (r: Option<TrustState>)
      ensures r == (if agent == "" then None else Some(SnapshotOf(states, agent).state))
    {
      var s := GetAgentTrust(agent);
      return if s.None? then None else Some(s.value.state);
    }

    method EnsureLocked(agent: string) returns (b: Beta)
      modifies this`states
      ensures b == Stored(cfg, old(states), agent)
      ensures states == old(states)[agent := b]
    {
      if agent in states {
        b := states[agent];
        assert states == states[agent := b];
        return;
      }
      b := Beta(cfg.initialAlpha, cfg.initialBeta, 0, Trusted);
      states := states[agent := b];
    }

    method RecordDecision(agent: string, action: Action) returns (r: Option<Update>)
      modifies this`states
      ensures agent == "" ==> r == None && states == old(states)
      ensures agent != "" ==>
                && r == Some(UpdateOf(cfg, old(states), agent, OutcomeOf(action)))
                && states == Recorded(cfg, old(states), agent, OutcomeOf(action))
    {
      if agent == "" {
        return None;
      }
      var outcome := OutcomeOf(action);
      if outcome == Neutral {
        var current := GetAgentTrust(agent);
        return Some(Update(current.value, current.value, outcome, false));
      }
      var state := EnsureLocked(agent);
      var before := Snap(state);
      match outcome {
        case Success =>
          state := state.(alpha := state.alpha + cfg.successWeight);
        case Failure =>
          var weight := cfg.failureWeight;
          if state.state == Evaluating {
            weight := weight * cfg.multiplier;
          }
          state := state.(beta := state.beta + weight);
        case Partial =>
          state := state.(alpha := state.alpha + cfg.partialAlpha);
          state := state.(beta := state.beta + cfg.partialBeta);
      }
      state := state.(interactions := state.interactions + 1);
      if state.state != Terminated {
        state := state.(state := StateFromScore(ScoreOf(state), cfg.theta, cfg.degraded));
      }
      assert state == Fold(cfg, Stored(cfg, old(states), agent), outcome);
      states := states[agent := state];
      var after := Snap(state);
      return Some(Update(before, after, outcome, before.state != after.state));
    }

    method ResetAgentTrust(agent: string) returns (r: Option<Snapshot>)
      modifies this`states
      ensures r == (if agent == "" then None else Some(DefaultSnapshot))
      ensures states == (if agent == "" then old(states) else old(states) - {agent})
    {
      if agent == "" {
        return None;
      }
      states := states - {agent};
      return Some(DefaultSnapshot);
    }

    method TerminateAgent(agent: string) returns (r: Option<Snapshot>)
      modifies this`states
      ensures agent == "" ==> r == None && states == old(states)
      ensures agent != "" ==>
                && states == old(states)[agent := Stored(cfg, old(states), agent).(state := Terminated)]
                && r == Some(Snap(states[agent]))
    {
      if agent == "" {
        return None;
      }
      var state := EnsureLocked(agent);
      state := state.(state := Terminated);
      states := states[agent := state];
      return Some(Snap(state));
    }
  }

  // --- The tables and views, as the source states them -----------------------------------

  lemma DefaultsExact(c: Config)
    ensures WithDefaults(c).theta == (if c.theta == 0.0 then 0.3 else c.theta)
    ensures WithDefaults(c).degraded == (if c.degraded == 0.0 then 0.6 else c.degraded)
    ensures WithDefaults(c).initialAlpha == (if c.initialAlpha == 0.0 then 1.0 else c.initialAlpha)
    ensures WithDefaults(c).initialBeta == (if c.initialBeta == 0.0 then 1.0 else c.initialBeta)
    ensures WithDefaults(c).successWeight == (if c.successWeight == 0.0 then 1.0 else c.successWeight)
    ensures WithDefaults(c).failureWeight == (if c.failureWeight == 0.0 then 1.0 else c.failureWeight)
    ensures WithDefaults(c).partialAlpha == (if c.partialAlpha == 0.0 then 0.5 else c.partialAlpha)
    ensures WithDefaults(c).partialBeta == (if c.partialBeta == 0.0 then 0.5 else c.partialBeta)
    ensures WithDefaults(c).multiplier == (if c.multiplier == 0.0 then 2.0 else c.multiplier)
  {
  }

  lemma OutcomesExact(a: Action)
    ensures OutcomeOf(a) == Success <==> a == Allow
    ensures OutcomeOf(a) == Failure <==> a == Deny
    ensures OutcomeOf(a) == Neutral <==> a == Warn
  {
  }

  /** The score is alpha's share, and the state says on which side of the two
      thresholds it lies. */
  lemma ScoreExact(alpha: real, beta: real, theta: real, degraded: real)
    ensures alpha + beta > 0.0 ==> Score(alpha, beta) * (alpha + beta) == alpha
    ensures alpha + beta <= 0.0 ==> Score(alpha, beta) == 0.0
    ensures var x := Score(alpha, beta);
            var s := StateFromScore(x, theta, degraded);
            && (s == Isolated <==> x < theta)
            && (s == Evaluating <==> theta <= x < degraded)
            && (s == Trusted <==> theta <= x && degraded <= x)
  {
  }

  /** A snapshot shows the record as it is. */
  ghost predicate Shows(s: Snapshot, b: Beta) {
    && s.known && s.state == b.state && s.alpha == b.alpha && s.beta == b.beta && s.interactions == b.interactions
    && (b.alpha + b.beta > 0.0 ==> s.score * (b.alpha + b.beta) == b.alpha)
  }

  lemma SnapShows(b: Beta)
    ensures Shows(Snap(b), b)
  {
    ScoreExact(b.alpha, b.beta, 0.0, 0.0);
  }

  /** An update reports the record before and after, and a transition exactly when its
      state changed; a neutral outcome changes and reports nothing. */
  lemma UpdateExact(cfg: Config, states: States, agent: string, o: Outcome)
    ensures var u, next := UpdateOf(cfg, states, agent, o), Recorded(cfg, states, agent, o);
            && u.outcome == o
            && (o == Neutral ==> next == states && u.before == u.after == SnapshotOf(states, agent) && !u.transition)
            && (o != Neutral ==>
                  && agent in next && Shows(u.after, next[agent])
                  && Shows(u.before, if agent in states then states[agent] else Beta(cfg.initialAlpha, cfg.initialBeta, 0, Trusted))
                  && (u.transition <==> u.before.state != u.after.state))
  {
    SnapShows(Stored(cfg, states, agent));
    SnapShows(Fold(cfg, Stored(cfg, states, agent), o));
  }

  /** Recording for one agent leaves every other record alone. */
  lemma RecordingIsLocal(cfg: Config, states: States, agent: string, o: Outcome, other: string)
    requires other != agent
    ensures SnapshotOf(Recorded(cfg, states, agent, o), other) == SnapshotOf(states, other)
  {
  }

  /** An agent nobody has recorded is trusted with full score and unknown. */
  lemma SnapshotExact(states: States, agent: string)
    ensures agent in states ==> Shows(SnapshotOf(states, agent), states[agent])
    ensures agent !in states ==> SnapshotOf(states, agent) == Snapshot(Trusted, 1.0, 0.0, 0.0, 0, false)
  {
    if agent in states {
      SnapShows(states[agent]);
    }
  }

  // --- Runs of outcomes -------------------------------------------------------------

  function FoldAll(cfg: Config, b: Beta, os: seq<Outcome>): Beta {
    if os == [] then b else Fold(cfg, FoldAll(cfg, b, os[..|os| - 1]), os[|os| - 1])
  }

  function Count(os: seq<Outcome>, o: Outcome): nat {
    if os == [] then 0 else Count(os[..|os| - 1], o) + (if os[|os| - 1] == o then 1 else 0)
  }

  /** The agent's state before each outcome of the run. */
  function StatesBefore(cfg: Config, b: Beta, os: seq<Outcome>): (sts: seq<TrustState>)
    ensures |sts| == |os|
  {
    if os == [] then [] else StatesBefore(cfg, b, os[..|os| - 1]) + [FoldAll(cfg, b, os[..|os| - 1]).state]
  }

  /** Failures recorded while the agent was degraded. */
  function DegradedFailures(sts: seq<TrustState>, os: seq<Outcome>): nat
    requires |sts| == |os|
  {
    if os == [] then 0
    else
      DegradedFailures(sts[..|os| - 1], os[..|os| - 1])
      + (if os[|os| - 1] == Failure && sts[|os| - 1] == Evaluating then 1 else 0)
  }

  function TotalAlpha(cfg: Config, os: seq<Outcome>): real {
    if os == [] then 0.0 else TotalAlpha(cfg, os[..|os| - 1]) + AlphaGain(cfg, os[|os| - 1])
  }

  function TotalBeta(w: real, d: real, h: real, sts: seq<TrustState>, os: seq<Outcome>): real
    requires |sts| == |os|
  {
    if os == [] then 0.0
    else TotalBeta(w, d, h, sts[..|os| - 1], os[..|os| - 1]) + BetaGain(w, d, h, sts[|os| - 1], os[|os| - 1])
  }

  ghost predicate Positive(cfg: Config) {
    && cfg.successWeight > 0.0 && cfg.failureWeight > 0.0
    && cfg.partialAlpha > 0.0 && cfg.partialBeta > 0.0
    && cfg.multiplier >= 1.0
  }

  /** w added up n times. */
  function Repeated(w: real, n: nat): real {
    if n == 0 then 0.0 else Repeated(w, n - 1) + w
  }

  lemma {:induction false} RepeatedIsProduct(w: real, n: nat)
    ensures Repeated(w, n) == w * (n as real)
  {
    if n > 0 {
      RepeatedIsProduct(w, n - 1);
      assert w * (n as real) == w * ((n - 1) as real) + w;
    }
  }

  lemma {:induction false} ParametersAreTotals(cfg: Config, b: Beta, os: seq<Outcome>)
    ensures FoldAll(cfg, b, os).alpha == b.alpha + TotalAlpha(cfg, os)
    ensures FoldAll(cfg, b, os).beta == b.beta + TotalBeta(cfg.failureWeight, DegradedWeight(cfg), cfg.partialBeta, StatesBefore(cfg, b, os), os)
  {
    if os != [] {
      var init := os[..|os| - 1];
      ParametersAreTotals(cfg, b, init);
      assert StatesBefore(cfg, b, os)[..|os| - 1] == StatesBefore(cfg, b, init);
    }
  }

  lemma {:induction false} AlphaIsCounts(cfg: Config, os: seq<Outcome>)
    ensures TotalAlpha(cfg, os) == Repeated(cfg.successWeight, Count(os, Success)) + Repeated(cfg.partialAlpha, Count(os, Partial))
  {
    if os != [] {
      AlphaIsCounts(cfg, os[..|os| - 1]);
    }
  }

  lemma {:induction false} DegradedAreFailures(sts: seq<TrustState>, os: seq<Outcome>)
    requires |sts| == |os|
    ensures DegradedFailures(sts, os) <= Count(os, Failure)
  {
    if os != [] {
      DegradedAreFailures(sts[..|os| - 1], os[..|os| - 1]);
    }
  }

  /** Plain failures, degraded failures and partial outcomes, each weighted. */
  function CountedBeta(w: real, d: real, h: real, sts: seq<TrustState>, os: seq<Outcome>): real
    requires |sts| == |os|
  {
    DegradedAreFailures(sts, os);
    Repeated(w, Count(os, Failure) - DegradedFailures(sts, os)) + Repeated(d, DegradedFailures(sts, os)) + Repeated(h, Count(os, Partial))
  }

  lemma {:induction false} BetaIsCounts(w: real, d: real, h: real, sts: seq<TrustState>, os: seq<Outcome>)
    requires |sts| == |os|
    ensures TotalBeta(w, d, h, sts, os) == CountedBeta(w, d, h, sts, os)
  {
    if os != [] {
      DegradedAreFailures(sts, os);
      DegradedAreFailures(sts[..|os| - 1], os[..|os| - 1]);
      BetaIsCounts(w, d, h, sts[..|os| - 1], os[..|os| - 1]);
    }
  }

  /** Every outcome but a neutral one is an interaction. */
  lemma {:induction false} InteractionsCounted(cfg: Config, b: Beta, os: seq<Outcome>)
    ensures FoldAll(cfg, b, os).interactions == b.interactions + (|os| - Count(os, Neutral)) && Count(os, Neutral) <= |os|
  {
    if os != [] {
      InteractionsCounted(cfg, b, os[..|os| - 1]);
    }
  }

  lemma DegradedWeightExact(cfg: Config)
    ensures DegradedWeight(cfg) == cfg.multiplier * cfg.failureWeight
  {
  }

  /** alpha is the initial alpha plus the weighted success and partial counts. */
  lemma {:induction false} AlphaOfRun(cfg: Config, b: Beta, os: seq<Outcome>)
    ensures FoldAll(cfg, b, os).alpha
         == b.alpha + (Repeated(cfg.successWeight, Count(os, Success)) + Repeated(cfg.partialAlpha, Count(os, Partial)))
  {
    ParametersAreTotals(cfg, b, os);
    AlphaIsCounts(cfg, os);
  }

  /** beta likewise; a failure weighs more only if it was recorded while the
      agent was degraded. */
  lemma {:induction false} BetaOfRun(cfg: Config, b: Beta, os: seq<Outcome>)
    ensures DegradedFailures(StatesBefore(cfg, b, os), os) <= Count(os, Failure)
    ensures FoldAll(cfg, b, os).beta
         == b.beta + CountedBeta(cfg.failureWeight, DegradedWeight(cfg), cfg.partialBeta, StatesBefore(cfg, b, os), os)
  {
    ParametersAreTotals(cfg, b, os);
    DegradedAreFailures(StatesBefore(cfg, b, os), os);
    BetaIsCounts(cfg.failureWeight, DegradedWeight(cfg), cfg.partialBeta, StatesBefore(cfg, b, os), os);
  }

  lemma DegradedWeighsMore(cfg: Config)
    requires Positive(cfg)
    ensures DegradedWeight(cfg) >= cfg.failureWeight > 0.0
    ensures cfg.multiplier == 1.0 ==> DegradedWeight(cfg) == cfg.failureWeight
  {
    MulMono(cfg.failureWeight, 1.0, cfg.multiplier);
  }

  lemma MulMono(w: real, x: real, y: real)
    requires w >= 0.0 && x <= y
    ensures w * x <= w * y
  {
  }

  /** alpha/(alpha+beta) < n/d, without division. */
  lemma BelowFraction(alpha: real, beta: real, n: real, d: real)
    requires alpha + beta > 0.0 && d > 0.0
    ensures Score(alpha, beta) < n / d <==> alpha * d < n * (alpha + beta)
  {
    var s, t := alpha / (alpha + beta), n / d;
    assert s * (alpha + beta) == alpha && t * d == n;
    var k := (alpha + beta) * d;
    assert k > 0.0;
    assert s * k == alpha * d && t * k == n * (alpha + beta);
    if s < t {
      StrictMul(k, s, t);
    } else {
      MulMono(k, t, s);
    }
  }

  lemma StrictMul(k: real, x: real, y: real)
    requires k > 0.0 && x < y
    ensures k * x < k * y
  {
  }

  lemma {:induction false} StaysPositive(cfg: Config, b: Beta, os: seq<Outcome>)
    requires Positive(cfg) && b.alpha > 0.0 && b.beta > 0.0
    ensures FoldAll(cfg, b, os).alpha >= b.alpha && FoldAll(cfg, b, os).beta >= b.beta
  {
    if os != [] {
      StaysPositive(cfg, b, os[..|os| - 1]);
      DegradedWeighsMore(cfg);
    }
  }

  /** The score never leaves the open unit interval, whatever is recorded. */
  lemma ScoreInUnitInterval(cfg: Config, b: Beta, os: seq<Outcome>)
    requires Positive(cfg) && b.alpha > 0.0 && b.beta > 0.0
    ensures 0.0 < ScoreOf(FoldAll(cfg, b, os)) < 1.0
  {
    StaysPositive(cfg, b, os);
    var e := FoldAll(cfg, b, os);
    BelowFraction(e.alpha, e.beta, 1.0, 1.0);
    BelowFraction(e.alpha, e.beta, 0.0, 1.0);
    assert e.alpha / (e.alpha + e.beta) != 0.0 by {
      assert e.alpha / (e.alpha + e.beta) * (e.alpha + e.beta) == e.alpha;
    }
  }

  /** A success strictly raises the score and a failure strictly lowers it. */
  lemma ScoreMovesStrictly(cfg: Config, b: Beta)
    requires Positive(cfg) && b.alpha > 0.0 && b.beta > 0.0
    ensures ScoreOf(Fold(cfg, b, Success)) > ScoreOf(b)
    ensures ScoreOf(Fold(cfg, b, Failure)) < ScoreOf(b)
  {
    RaisingAlphaRaises(b.alpha, b.beta, cfg.successWeight);
    DegradedWeighsMore(cfg);
    RaisingBetaLowers(b.alpha, b.beta, BetaGain(cfg.failureWeight, DegradedWeight(cfg), cfg.partialBeta, b.state, Failure));
  }

  lemma RaisingAlphaRaises(a: real, e: real, w: real)
    requires a > 0.0 && e > 0.0 && w > 0.0
    ensures Score(a + w, e) > Score(a, e)
  {
    BelowFraction(a, e, a + w, a + w + e);
    StrictMul(w, 0.0, e);
    assert a * (a + w + e) == a * (a + e) + a * w;
    assert (a + w) * (a + e) == a * (a + e) + w * a + w * e;
  }

  lemma RaisingBetaLowers(a: real, e: real, f: real)
    requires a > 0.0 && e > 0.0 && f > 0.0
    ensures Score(a, e + f) < Score(a, e)
  {
    BelowFraction(a, e + f, a, a + e);
    StrictMul(a, a + e, a + (e + f));
  }

  /** After any non-neutral outcome a live agent's state is the threshold
      function of its score. */
  lemma {:induction false} StateTracksScore(cfg: Config, b: Beta, os: seq<Outcome>)
    requires b.state != Terminated
    requires exists i :: 0 <= i < |os| && os[i] != Neutral
    ensures var e := FoldAll(cfg, b, os);
            e.state == StateFromScore(ScoreOf(e), cfg.theta, cfg.degraded)
  {
    var init := os[..|os| - 1];
    NeverTerminates(cfg, b, init);
    if os[|os| - 1] == Neutral {
      var i :| 0 <= i < |os| && os[i] != Neutral;
      assert init[i] != Neutral;
      StateTracksScore(cfg, b, init);
    }
  }

  /** Recording alone never terminates an agent, and never revives one. */
  lemma {:induction false} NeverTerminates(cfg: Config, b: Beta, os: seq<Outcome>)
    ensures FoldAll(cfg, b, os).state == Terminated <==> b.state == Terminated
  {
    if os != [] {
      NeverTerminates(cfg, b, os[..|os| - 1]);
    }
  }

  // --- Consecutive denials isolate -------------------------------------------------

  function Denials(n: nat): seq<Outcome> {
    seq(n, _ => Failure)
  }

  function Floor(x: real): int {
    x.Floor
  }

  /** How many failures of weight w take beta up to alpha(1-t)/t. */
  function Gap(alpha: real, beta: real, t: real, w: real): real
    requires t > 0.0 && w > 0.0
  {
    (alpha * (1.0 - t) / t - beta) / w
  }

  function AtLeastOne(n: int): nat {
    if n < 1 then 1 else n
  }

  /** max(1, floor((alpha(1-theta)/theta - beta) / failureWeight) + 1) */
  function DenialBound(cfg: Config, b: Beta): nat
    requires cfg.theta > 0.0 && cfg.failureWeight > 0.0
  {
    AtLeastOne(Floor(Gap(b.alpha, b.beta, cfg.theta, cfg.failureWeight)) + 1)
  }

  lemma {:induction false} DenialsGrowBeta(cfg: Config, b: Beta, n: nat)
    requires Positive(cfg)
    ensures var e := FoldAll(cfg, b, Denials(n));
            && e.alpha == b.alpha
            && e.beta >= b.beta + Repeated(cfg.failureWeight, n)
            && (cfg.multiplier == 1.0 ==> e.beta == b.beta + Repeated(cfg.failureWeight, n))
  {
    if n > 0 {
      assert Denials(n)[..n - 1] == Denials(n - 1);
      DenialsGrowBeta(cfg, b, n - 1);
      DegradedWeighsMore(cfg);
    }
  }

  /** The score test without division: alpha < t * (alpha + beta). */
  predicate Under(alpha: real, beta: real, t: real) {
    alpha < t * (alpha + beta)
  }

  lemma BelowTheta(alpha: real, beta: real, t: real)
    requires alpha + beta > 0.0
    ensures Score(alpha, beta) < t <==> Under(alpha, beta, t)
  {
    BelowFraction(alpha, beta, t, 1.0);
    assert t / 1.0 == t;
  }

  /** More than the gap of failures is exactly what takes the score under t. */
  lemma GapFormula(alpha: real, beta: real, t: real, w: real, m: real)
    requires t > 0.0 && w > 0.0
    ensures m > Gap(alpha, beta, t, w) <==> Under(alpha, beta + w * m, t)
  {
    var x := Gap(alpha, beta, t, w);
    var g := alpha * (1.0 - t) / t;
    assert g * t == alpha * (1.0 - t);
    assert x * w == g - beta;
    if m > x {
      StrictMul(w, x, m);
      StrictMul(t, g, beta + w * m);
    } else {
      MulMono(w, m, x);
      MulMono(t, beta + w * m, g);
    }
  }

  lemma UnderMono(alpha: real, beta: real, more: real, t: real)
    requires t > 0.0 && beta <= more
    ensures Under(alpha, beta, t) ==> Under(alpha, more, t)
  {
    MulMono(t, alpha + beta, alpha + more);
  }

  lemma FloorBound(x: real, n: nat)
    requires n >= 1
    ensures n >= AtLeastOne(Floor(x) + 1) <==> (n as real) > x
  {
    assert x - 1.0 < Floor(x) as real <= x;
  }

  lemma IsolatedIffUnder(cfg: Config, b: Beta, os: seq<Outcome>)
    requires Positive(cfg) && b.alpha > 0.0 && b.beta > 0.0 && b.state != Terminated
    requires exists i :: 0 <= i < |os| && os[i] != Neutral
    ensures var e := FoldAll(cfg, b, os);
            e.state == Isolated <==> Under(e.alpha, e.beta, cfg.theta)
  {
    var e := FoldAll(cfg, b, os);
    StaysPositive(cfg, b, os);
    StateTracksScore(cfg, b, os);
    BelowTheta(e.alpha, e.beta, cfg.theta);
  }

  lemma DenialsUnder(cfg: Config, b: Beta, n: nat)
    requires Positive(cfg) && cfg.theta > 0.0 && n >= 1
    requires b.alpha > 0.0 && b.beta > 0.0 && b.state != Terminated
    ensures Under(b.alpha, b.beta + Repeated(cfg.failureWeight, n), cfg.theta) ==> FoldAll(cfg, b, Denials(n)).state == Isolated
    ensures cfg.multiplier == 1.0 && !Under(b.alpha, b.beta + Repeated(cfg.failureWeight, n), cfg.theta) ==>
              FoldAll(cfg, b, Denials(n)).state != Isolated
  {
    assert Denials(n)[0] != Neutral;
    IsolatedIffUnder(cfg, b, Denials(n));
    DenialsGrowBeta(cfg, b, n);
    UnderMono(b.alpha, b.beta + Repeated(cfg.failureWeight, n), FoldAll(cfg, b, Denials(n)).beta, cfg.theta);
  }

  lemma BoundIsUnder(cfg: Config, b: Beta, n: nat)
    requires cfg.theta > 0.0 && cfg.failureWeight > 0.0 && n >= 1
    ensures n >= DenialBound(cfg, b) <==> Under(b.alpha, b.beta + Repeated(cfg.failureWeight, n), cfg.theta)
  {
    var x := Gap(b.alpha, b.beta, cfg.theta, cfg.failureWeight);
    FloorBound(x, n);
    GapFormula(b.alpha, b.beta, cfg.theta, cfg.failureWeight, n as real);
    RepeatedIsProduct(cfg.failureWeight, n);
  }

  /** From any live state, that many consecutive recorded denials (or more)
      leave the agent ISOLATED; with no degraded multiplier, not one fewer. */
  lemma DenialsIsolate(cfg: Config, b: Beta, n: nat)
    requires Positive(cfg) && cfg.theta > 0.0
    requires b.alpha > 0.0 && b.beta > 0.0 && b.state != Terminated
    ensures n >= DenialBound(cfg, b) ==> FoldAll(cfg, b, Denials(n)).state == Isolated
    ensures cfg.multiplier == 1.0 && 1 <= n < DenialBound(cfg, b) ==> FoldAll(cfg, b, Denials(n)).state != Isolated
  {
    if n >= 1 {
      BoundIsUnder(cfg, b, n);
      DenialsUnder(cfg, b, n);
    }
  }

  // --- The integer checker -----------------------------------------------------------

  datatype Witness = Witness(alpha: nat, beta: nat, thresholdNum: nat, thresholdDen: nat, circuitOpen: bool)

  predicate BelowThreshold(alpha: nat, beta: nat, p: nat, q: nat) {
    (alpha + 1) * q < p * (alpha + beta + 2)
  }

  predicate CheckTrustCircuit(w: Witness) {
    && 0 < w.thresholdNum < w.thresholdDen
    && w.circuitOpen == BelowThreshold(w.alpha, w.beta, w.thresholdNum, w.thresholdDen)
  }

  ghost predicate UnitConfig(cfg: Config, p: nat, q: nat, m: nat) {
    && 0 < p < q && m >= 1
    && cfg.initialAlpha == 1.0 && cfg.initialBeta == 1.0
    && cfg.successWeight == 1.0 && cfg.failureWeight == 1.0
    && cfg.multiplier == m as real
    && cfg.theta == (p as real) / (q as real)
  }

  /** Success and failure counts as the checker sees them: (alpha-1, beta-1). */
  function Counts(cfg: Config, m: nat, os: seq<Outcome>): (nat, nat) {
    if os == [] then (0, 0)
    else
      var (a, b) := Counts(cfg, m, os[..|os| - 1]);
      if os[|os| - 1] == Success then (a + 1, b)
      else if os[|os| - 1] == Failure then (a, b + (if FoldAll(cfg, Fresh(cfg), os[..|os| - 1]).state == Evaluating then m else 1))
      else (a, b)
  }

  lemma {:induction false} CountsAreParameters(cfg: Config, p: nat, q: nat, m: nat, os: seq<Outcome>)
    requires UnitConfig(cfg, p, q, m)
    requires forall i :: 0 <= i < |os| ==> os[i] == Success || os[i] == Failure
    ensures var e := FoldAll(cfg, Fresh(cfg), os);
            && e.alpha == (Counts(cfg, m, os).0 + 1) as real
            && e.beta == (Counts(cfg, m, os).1 + 1) as real
  {
    if os != [] {
      CountsAreParameters(cfg, p, q, m, os[..|os| - 1]);
    }
  }

  lemma BelowThresholdIsScore(a: nat, b: nat, p: nat, q: nat)
    requires q > 0
    ensures BelowThreshold(a, b, p, q) <==> Score((a + 1) as real, (b + 1) as real) < (p as real) / (q as real)
  {
    BelowFraction((a + 1) as real, (b + 1) as real, p as real, q as real);
    CastProduct(a + 1, q);
    CastProduct(p, a + b + 2);
    assert (a + 1) as real + (b + 1) as real == (a + b + 2) as real;
  }

  lemma {:induction false} CastProduct(x: nat, y: nat)
    ensures (x as real) * (y as real) == (x * y) as real
  {
    if x > 0 {
      CastProduct(x - 1, y);
      assert x * y == (x - 1) * y + y;
      assert (x as real) * (y as real) == ((x - 1) as real) * (y as real) + (y as real);
    }
  }

  /** The checker agrees with the runtime: on every run of successes and
      failures the witness read off the live state passes, at every state but
      possibly the fresh one, and at the fresh one too iff p/q <= 1/2. */
  lemma {:induction false} CheckerAgrees(cfg: Config, p: nat, q: nat, m: nat, os: seq<Outcome>)
    requires UnitConfig(cfg, p, q, m)
    requires forall i :: 0 <= i < |os| ==> os[i] == Success || os[i] == Failure
    ensures var e := FoldAll(cfg, Fresh(cfg), os);
            var (a, b) := Counts(cfg, m, os);
            && e.alpha == (a + 1) as real && e.beta == (b + 1) as real
            && (CheckTrustCircuit(Witness(a, b, p, q, e.state == Isolated)) <==> os != [] || 2 * p <= q)
  {
    var e := FoldAll(cfg, Fresh(cfg), os);
    var (a, b) := Counts(cfg, m, os);
    CountsAreParameters(cfg, p, q, m, os);
    BelowThresholdIsScore(a, b, p, q);
    if os != [] {
      assert os[0] != Neutral;
      StateTracksScore(cfg, Fresh(cfg), os);
    }
  }
}
