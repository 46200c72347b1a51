/** The pipeline over the in-process trust backend: what whole sequential runs do
    to an agent's trust record. */
module PipelineTrust {
  import opened Text
  import opened Verdicts
  import opened Policy
  import opened Pipeline
  import opened PipelineLaws
  import opened PipelineReasons
  import opened PipelineRecord
  import Trust

  function PipelineUpdate(u: Trust.Update): TrustUpdate {
    TrustUpdate(u.before.state, u.after.state, u.after.score, Trust.OutcomeText(u.outcome), u.transition)
  }

  const NoAgent := "agent_id is required"

  /** The backend over a given store, as the pipeline sees it during one call. */
  function Backend(cfg: Trust.Config, states: Trust.States): TrustChecker {
    TrustChecker(
      (agent: string) =>
        if agent == "" then Error(Unavailable, NoAgent) else Value(Trust.SnapshotOf(states, agent).state),
      Some((req: Request, d: Decision) =>
        if req.agentId == "" then Error(Unavailable, NoAgent)
        else Value(PipelineUpdate(Trust.UpdateOf(cfg, states, req.agentId, Trust.OutcomeOf(d.ruling.action))))))
  }

  function Over(p: Setup, cfg: Trust.Config, states: Trust.States): Setup {
    p.(trust := Some(Backend(cfg, states)))
  }

  /** One operation on the running system.  Each evaluation may bring its own
      rules, collaborators, transport and dry-run setting. */
  datatype Op =
    | Evaluation(setup: Setup, req: Request)
    | Reset(agent: string)
    | Terminate(agent: string)

  /** The outcome an evaluation hands to the backend, if any. */
  function Submitted(cfg: Trust.Config, states: Trust.States, p: Setup, req: Request): Option<Trust.Outcome> {
    var q := Over(p, cfg, states);
    var d := Deliberate(q, req).decision;
    if Submits(q, req, d) then Some(Trust.OutcomeOf(d.ruling.action)) else None
  }

  function Next(cfg: Trust.Config, states: Trust.States, op: Op): Trust.States {
    match op
    case Evaluation(p, req) =>
      var o := Submitted(cfg, states, p, req);
      if o.Some? then Trust.Recorded(cfg, states, req.agentId, o.value) else states
    case Reset(agent) => if agent == "" then states else states - {agent}
    case Terminate(agent) =>
      if agent == "" then states
      else states[agent := Trust.Stored(cfg, states, agent).(state := Terminated)]
  }

  function After(cfg: Trust.Config, states: Trust.States, ops: seq<Op>): Trust.States {
    if ops == [] then states else Next(cfg, After(cfg, states, ops[..|ops| - 1]), ops[|ops| - 1])
  }

  /** One evaluation over a live backend object: stage 1 reads it, the deferred
      block hands it the deliberated decision and reads back its update. */
  method EvaluateOver(backend: Trust.StandaloneTrustBackend, p: Setup, req: Request)
    returns (answer: Option<Decision>, events: seq<AuditEvent>)
    modifies backend`states
    ensures var q := Over(p, backend.cfg, old(backend.states));
            answer == Answer(q, req) && events == Events(q, req, Deliberate(q, req).decision)
    ensures backend.states == Next(backend.cfg, old(backend.states), Evaluation(p, req))
  {
    var q := Over(p, backend.cfg, backend.states);
    var pipeline := new Pipeline(q);
    var d := new GovernanceDecision();
    var crashed := pipeline.RunStages(req, d);
    var update := None;
    if Submits(q, req, d.Value()) {
      var u := backend.RecordDecision(req.agentId, d.action);
      update := Some(Value(PipelineUpdate(u.value)));
    }
    pipeline.Finish(req, d, update);
    return if crashed then None else Some(d.Value()), pipeline.events;
  }

  // --- What the pipeline is told about an agent --------------------------------------

  /** The backend's reply to a decision: the agent's standing before and after it, as
      the store shows them. */
  lemma BackendReplies(cfg: Trust.Config, states: Trust.States, req: Request, d: Decision)
    requires req.agentId != ""
    ensures var b, next := Backend(cfg, states), Trust.Recorded(cfg, states, req.agentId, Trust.OutcomeOf(d.ruling.action));
            var before, after := Trust.SnapshotOf(states, req.agentId), Trust.SnapshotOf(next, req.agentId);
            && b.check(req.agentId) == Value(before.state)
            && var c := b.record.value(req, d);
               && c.Value? && c.value.before == before.state && c.value.after == after.state && c.value.score == after.score
               && (c.value.transition <==> before.state != after.state)
               && c.value.outcome == Trust.OutcomeText(Trust.OutcomeOf(d.ruling.action))
  {
  }

  /** A scored call answers with the score and state its agent then has in the store. */
  lemma AnswerShowsStore(p: Setup, cfg: Trust.Config, states: Trust.States, req: Request)
    requires Submitted(cfg, states, p, req).Some?
    ensures var answer, after := Answer(Over(p, cfg, states), req), Trust.SnapshotOf(Next(cfg, states, Evaluation(p, req)), req.agentId);
            answer.Some? ==> answer.value.trustScore == after.score && answer.value.trustState == after.state
  {
    var q := Over(p, cfg, states);
    var d := Deliberate(q, req).decision;
    BackendReplies(cfg, states, req, d);
    TrustUpdateExact(q, req, d);
  }

  /** An operator's reset makes the agent unknown; a termination keeps its parameters
      and shuts it out; neither touches another agent. */
  lemma AdministrationExact(cfg: Trust.Config, states: Trust.States, agent: string, other: string)
    requires agent != ""
    ensures var reset, ended := Next(cfg, states, Reset(agent)), Next(cfg, states, Terminate(agent));
            && !Trust.SnapshotOf(reset, agent).known && !IsBlocked(reset, agent)
            && IsBlocked(ended, agent) && ended[agent].state == Terminated
            && (agent in states ==> ended[agent] == states[agent].(state := Terminated))
            && (other != agent ==>
                  Trust.SnapshotOf(reset, other) == Trust.SnapshotOf(ended, other) == Trust.SnapshotOf(states, other))
  {
  }

  // --- A blocked agent ----------------------------------------------------------------

  ghost predicate IsBlocked(states: Trust.States, agent: string) {
    agent in states && Blocked(states[agent].state)
  }

  ghost predicate Administers(op: Op, agent: string) {
    !op.Evaluation? && op.agent == agent
  }

  lemma BlockedTextIsMarked(agent: string, s: TrustState)
    requires Blocked(s)
    ensures TrustMarked(BlockedText(agent, s))
  {
    var marker := if s == Isolated then " is ISOLATED" else " is TERMINATED";
    ContainsMiddle("agent " + agent, marker, "");
    assert BlockedText(agent, s) == "agent " + agent + marker + "";
  }

  /** The markers: a prefix, or either of two phrases anywhere in the text. */
  lemma TrustMarkedExact(text: string)
    ensures TrustMarked(text) <==>
              || "trust check failed" <= text
              || Occurs(text, " is ISOLATED", false) || Occurs(text, " is TERMINATED", false)
  {
    ContainsExact(text, " is ISOLATED");
    ContainsExact(text, " is TERMINATED");
  }

  lemma BlockedDeliberation(p: Setup, cfg: Trust.Config, states: Trust.States, req: Request)
    requires req.agentId != "" && IsBlocked(states, req.agentId) && p.configErr.None?
    ensures var d := Deliberate(Over(p, cfg, states), req);
            && d.Concluded? && d.decision.ruling.action == Deny
            && d.decision.ruling.reason == AgentBlocked(req.agentId, states[req.agentId].state)
  {
    var q := Over(p, cfg, states);
    assert IdentityCheck(q, req) == Go(Initial, Trusted);
    assert q.trust.value.check(req.agentId) == Value(states[req.agentId].state);
    assert AfterTrust(q, req).Done?;
  }

  /** A blocked agent's call is denied, or indeterminate when the configuration is
      invalid, and the backend is not told, whatever the collaborators do. */
  lemma BlockedCall(p: Setup, cfg: Trust.Config, states: Trust.States, req: Request)
    requires req.agentId != "" && IsBlocked(states, req.agentId)
    ensures Submitted(cfg, states, p, req).None?
    ensures Next(cfg, states, Evaluation(p, req)) == states
    ensures var answer := Answer(Over(p, cfg, states), req);
            && answer.Some?
            && (!p.dryRun ==> answer.value.ruling.action == (if p.configErr.None? then Deny else CheckIndeterminate))
  {
    if p.configErr.None? {
      BlockedDeliberation(p, cfg, states, req);
      BlockedTextIsMarked(req.agentId, states[req.agentId].state);
    }
  }

  lemma StepKeepsBlocked(cfg: Trust.Config, states: Trust.States, op: Op, agent: string)
    requires agent != "" && IsBlocked(states, agent) && !Administers(op, agent)
    ensures agent in Next(cfg, states, op) && Next(cfg, states, op)[agent] == states[agent]
  {
    if op.Evaluation? && op.req.agentId == agent {
      BlockedCall(op.setup, cfg, states, op.req);
    }
  }

  /** Isolation and termination are absorbing over whole runs: until the agent is
      itself reset or terminated, its record never changes. */
  lemma {:induction false} IsolationAbsorbing(cfg: Trust.Config, states: Trust.States, ops: seq<Op>, agent: string)
    requires agent != "" && IsBlocked(states, agent)
    requires forall i :: 0 <= i < |ops| ==> !Administers(ops[i], agent)
    ensures agent in After(cfg, states, ops) && After(cfg, states, ops)[agent] == states[agent]
  {
    if ops != [] {
      var init := ops[..|ops| - 1];
      IsolationAbsorbing(cfg, states, init, agent);
      StepKeepsBlocked(cfg, After(cfg, states, init), ops[|ops| - 1], agent);
    }
  }

  /** ... and every one of its calls in the run is blocked. */
  lemma {:induction false} BlockedThroughout(cfg: Trust.Config, states: Trust.States, ops: seq<Op>, agent: string, i: nat)
    requires agent != "" && IsBlocked(states, agent)
    requires forall k :: 0 <= k < |ops| ==> !Administers(ops[k], agent)
    requires i < |ops| && ops[i].Evaluation? && ops[i].req.agentId == agent && !ops[i].setup.dryRun
    ensures var answer := Answer(Over(ops[i].setup, cfg, After(cfg, states, ops[..i])), ops[i].req);
            answer.Some? && (answer.value.ruling.action == Deny || answer.value.ruling.action == CheckIndeterminate)
  {
    IsolationAbsorbing(cfg, states, ops[..i], agent);
    BlockedCall(ops[i].setup, cfg, After(cfg, states, ops[..i]), ops[i].req);
  }

  // --- An agent's record is its own history -------------------------------------------------

  /** The outcome an operation records for agent: none or one. */
  function Told(cfg: Trust.Config, states: Trust.States, op: Op, agent: string): seq<Trust.Outcome> {
    if !op.Evaluation? || op.req.agentId != agent then []
    else
      var o := Submitted(cfg, states, op.setup, op.req);
      if o.Some? then [o.value] else []
  }

  /** The outcomes the run records for agent, in order. */
  function Outcomes(cfg: Trust.Config, states: Trust.States, ops: seq<Op>, agent: string): seq<Trust.Outcome> {
    if ops == [] then []
    else
      var init := ops[..|ops| - 1];
      Outcomes(cfg, states, init, agent) + Told(cfg, After(cfg, states, init), ops[|ops| - 1], agent)
  }

  lemma StepIsHistory(cfg: Trust.Config, states: Trust.States, op: Op, agent: string, b: Trust.Beta, os: seq<Trust.Outcome>)
    requires !Administers(op, agent)
    requires Trust.Stored(cfg, states, agent) == Trust.FoldAll(cfg, b, os)
    ensures Trust.Stored(cfg, Next(cfg, states, op), agent) == Trust.FoldAll(cfg, b, os + Told(cfg, states, op, agent))
  {
    if Told(cfg, states, op, agent) == [] {
      assert os + Told(cfg, states, op, agent) == os;
    } else {
      assert (os + Told(cfg, states, op, agent))[..|os|] == os;
    }
  }

  /** An agent's record is the fold of its own recorded outcomes, nothing else. */
  lemma {:induction false} RecordIsHistory(cfg: Trust.Config, states: Trust.States, ops: seq<Op>, agent: string)
    requires forall i :: 0 <= i < |ops| ==> !Administers(ops[i], agent)
    ensures Trust.Stored(cfg, After(cfg, states, ops), agent)
         == Trust.FoldAll(cfg, Trust.Stored(cfg, states, agent), Outcomes(cfg, states, ops, agent))
  {
    if ops != [] {
      var init := ops[..|ops| - 1];
      RecordIsHistory(cfg, states, init, agent);
      StepIsHistory(cfg, After(cfg, states, init), ops[|ops| - 1], agent, Trust.Stored(cfg, states, agent), Outcomes(cfg, states, init, agent));
    }
  }

  // --- Reason text decides whether a verdict counts -----------------------------------------

  lemma LiveAgentGoes(p: Setup, cfg: Trust.Config, states: Trust.States, req: Request)
    requires req.agentId != "" && !IsBlocked(states, req.agentId)
    ensures AfterTrust(Over(p, cfg, states), req).Go?
  {
    var q := Over(p, cfg, states);
    assert IdentityCheck(q, req) == Go(Initial, Trusted);
    assert q.trust.value.check(req.agentId) == Value(Trust.SnapshotOf(states, req.agentId).state);
  }

  /** The text whoever decided put on the record. */
  function DecidingText(s: Standing): string {
    Render(ReasonOf(s.source))
  }

  /** A live agent's verdict is scored exactly when the call is countable (no check
      it gets to fails, or the evaluator denies beside skipped rules), dry-run does
      not let it through, and the text of whoever decided, be it a rule, the interceptor, the evaluator or a reviewer,
      carries no trust marker. */
  lemma {:induction false} VerdictCountsExactly(p: Setup, cfg: Trust.Config, states: Trust.States, req: Request)
    requires p.configErr.None? && req.agentId != "" && !IsBlocked(states, req.agentId)
    ensures var q := Over(p, cfg, states);
            && AfterTrust(q, req).Go?
            && var who := Decided(q, req);
               Submitted(cfg, states, p, req)
               == (if CountableCall(q, req) && !(p.dryRun && who.action == Deny) && !TrustMarked(DecidingText(who))
                   then Some(Trust.OutcomeOf(who.action)) else None)
  {
    var q := Over(p, cfg, states);
    LiveAgentGoes(p, cfg, states, req);
    DecisionExact(q, req);
    CountableExactly(q, req);
    DecidedIsVerdict(q, req);
  }

  /** A static rule's denial of a live agent counts against it exactly when the
      rule's text carries no trust marker, whatever the collaborators do. */
  lemma {:induction false} DenialCountsExactly(p: Setup, cfg: Trust.Config, states: Trust.States, req: Request, w: Rule)
    requires p.configErr.None? && !p.dryRun && req.agentId != "" && !IsBlocked(states, req.agentId)
    requires Winner(p.rules, req, p.env) == Some(w) && w.action == Deny
    ensures Deliberate(Over(p, cfg, states), req).decision.ruling.action == Deny
    ensures Submitted(cfg, states, p, req) == (if TrustMarked(Render(ReasonOf(ByRule(w)))) then None else Some(Trust.Failure))
  {
    var q := Over(p, cfg, states);
    LiveAgentGoes(p, cfg, states, req);
    DenyIsFinal(q, req);
    assert Decided(q, req) == Standing(Deny, ByRule(w));
    StaticDenialClean(q, req, cfg, states);
    DecisionExact(q, req);
    VerdictCountsExactly(p, cfg, states, req);
  }

  lemma StaticDenialClean(q: Setup, req: Request, cfg: Trust.Config, states: Trust.States)
    requires q == Over(q, cfg, states) && q.configErr.None? && req.agentId != "" && AfterTrust(q, req).Go?
    requires StaticVerdict(q.rules, req, q.env) == Deny
    ensures Deliberate(q, req).decision.check.None?
  {
    TrustGoAllows(q, req);
    var s := AfterTrust(q, req);
    assert IdentityCheck(q, req) == Go(Initial, Trusted);
    assert s.decision.check.None?;
    StaticStageFacts(q, req, s.decision, s.posture);
    assert AfterStatic(q, req).Done?;
  }

  /** A denial whose text happens to say "is ISOLATED" is never scored. */
  lemma {:induction false} MarkerTextHidesDenial(p: Setup, cfg: Trust.Config, req: Request)
    requires p.configErr.None? && !p.dryRun && req.agentId != ""
    requires p.rules == [Rule("segment", "*", Deny, "the host is ISOLATED", "", Deterministic, [], [], None, [], "")]
    ensures Deliberate(Over(p, cfg, map[]), req).decision.ruling.action == Deny
    ensures Next(cfg, map[], Evaluation(p, req)) == map[]
  {
    var w := p.rules[0];
    assert p.rules[..0] == [];
    assert Winner(p.rules, req, p.env) == Some(w);
    ContainsMiddle("the host", " is ISOLATED", "");
    assert w.reason == "the host" + " is ISOLATED" + "";
    DenialCountsExactly(p, cfg, map[], req, w);
  }

  /** Over sequential runs a permitted answer never reports a blocked agent. */
  lemma {:induction false} SequentialPermitsOnlyLive(p: Setup, cfg: Trust.Config, states: Trust.States, req: Request)
    requires !p.dryRun
    ensures var answer := Answer(Over(p, cfg, states), req);
            answer.Some? && Allowed(answer.value) ==> !Blocked(answer.value.trustState)
  {
    var q := Over(p, cfg, states);
    if Answer(q, req).Some? && Allowed(Answer(q, req).value) {
      PermittedWhileBlockedExactly(q, req);
      if req.agentId != "" && IsBlocked(states, req.agentId) {
        BlockedCall(p, cfg, states, req);
      }
    }
  }

  // --- Agents do not interfere --------------------------------------------------------------

  ghost predicate AgreeOn(s: Trust.States, t: Trust.States, agent: string) {
    (agent in s <==> agent in t) && (agent in s ==> s[agent] == t[agent])
  }

  lemma DeliberationIsLocal(p: Setup, cfg: Trust.Config, s: Trust.States, t: Trust.States, req: Request)
    requires AgreeOn(s, t, req.agentId)
    ensures Deliberate(Over(p, cfg, s), req) == Deliberate(Over(p, cfg, t), req)
  {
    var q, r := Over(p, cfg, s), Over(p, cfg, t);
    assert q.trust.value.check(req.agentId) == r.trust.value.check(req.agentId);
    assert AfterTrust(q, req) == AfterTrust(r, req);
    assert AfterStatic(q, req) == AfterStatic(r, req);
    assert AfterIntercept(q, req) == AfterIntercept(r, req);
    var stage := AfterIntercept(q, req);
    if stage.Go? {
      EvalIsLocal(q, r, req, stage.decision, stage.posture);
    }
  }

  lemma EvalIsLocal(q: Setup, r: Setup, req: Request, d: Decision, posture: TrustState)
    requires r == q.(trust := r.trust)
    ensures EvalStage(q, req, d, posture) == EvalStage(r, req, d, posture)
  {
    var c := q.evaluate(req, d.trustScore, posture);
    if EvalFault(c).None? {
      var ev := c.value.value;
      AdoptIsLocal(q, r, req, d, ev, ev.errors != []);
      AdoptIsLocal(q, r, req, Mark(q, req, d, PolicyEvalStage, SkipCategory(ev), RuleSkipped), ev, false);
    }
  }

  lemma AdoptIsLocal(q: Setup, r: Setup, req: Request, d: Decision, ev: EvalDecision, denied: bool)
    requires r == q.(trust := r.trust)
    ensures Adopt(q, req, d, ev, denied) == Adopt(r, req, d, ev, denied)
  {
    assert TakeVerdict(q, req, d.ruling, ev) == TakeVerdict(r, req, d.ruling, ev);
    assert TakeAction(q, req, d, ev) == TakeAction(r, req, d, ev);
  }

  /** What a call answers and records depends on the store only through its own
      agent. */
  lemma CallIsLocal(p: Setup, cfg: Trust.Config, s: Trust.States, t: Trust.States, req: Request)
    requires AgreeOn(s, t, req.agentId)
    ensures Submitted(cfg, s, p, req) == Submitted(cfg, t, p, req)
    ensures Answer(Over(p, cfg, s), req) == Answer(Over(p, cfg, t), req)
  {
    DeliberationIsLocal(p, cfg, s, t, req);
    var q, r := Over(p, cfg, s), Over(p, cfg, t);
    var d := Deliberate(q, req).decision;
    assert Submits(q, req, d) == Submits(r, req, d);
    if Submits(q, req, d) {
      assert Recorded(q, req, d) == Recorded(r, req, d);
    }
    assert Settle(q, req, d) == Settle(r, req, d);
  }

  predicate Concerns(op: Op, agent: string) {
    if op.Evaluation? then op.req.agentId == agent else op.agent == agent
  }

  /** The part of a run that names agent. */
  function OwnOps(ops: seq<Op>, agent: string): seq<Op> {
    if ops == [] then []
    else OwnOps(ops[..|ops| - 1], agent) + (if Concerns(ops[|ops| - 1], agent) then [ops[|ops| - 1]] else [])
  }

  lemma StepIsLocal(cfg: Trust.Config, s: Trust.States, t: Trust.States, op: Op, agent: string)
    requires AgreeOn(s, t, agent)
    ensures Concerns(op, agent) ==> AgreeOn(Next(cfg, s, op), Next(cfg, t, op), agent)
    ensures !Concerns(op, agent) ==> AgreeOn(Next(cfg, s, op), t, agent)
  {
    if op.Evaluation? && op.req.agentId == agent {
      CallIsLocal(op.setup, cfg, s, t, op.req);
    }
  }

  lemma AfterAppend(cfg: Trust.Config, states: Trust.States, ops: seq<Op>, op: Op)
    ensures After(cfg, states, ops + [op]) == Next(cfg, After(cfg, states, ops), op)
  {
    assert (ops + [op])[..|ops|] == ops;
  }

  /** Agents do not interfere: deleting everyone else's operations from a run
      leaves agent's record, and so every later answer it gets, the same. */
  lemma {:induction false} Noninterference(cfg: Trust.Config, states: Trust.States, ops: seq<Op>, agent: string)
    ensures AgreeOn(After(cfg, states, ops), After(cfg, states, OwnOps(ops, agent)), agent)
  {
    if ops != [] {
      var init, op := ops[..|ops| - 1], ops[|ops| - 1];
      Noninterference(cfg, states, init, agent);
      var own := OwnOps(init, agent);
      StepIsLocal(cfg, After(cfg, states, init), After(cfg, states, own), op, agent);
      AfterAppend(cfg, states, own, op);
      assert OwnOps(ops, agent) == if Concerns(op, agent) then own + [op] else own;
    }
  }

  lemma {:induction false} AnswersDoNotInterfere(cfg: Trust.Config, states: Trust.States, ops: seq<Op>, p: Setup, req: Request)
    ensures Answer(Over(p, cfg, After(cfg, states, ops)), req)
         == Answer(Over(p, cfg, After(cfg, states, OwnOps(ops, req.agentId))), req)
  {
    Noninterference(cfg, states, ops, req.agentId);
    CallIsLocal(p, cfg, After(cfg, states, ops), After(cfg, states, OwnOps(ops, req.agentId)), req);
  }

  // --- Enough denials shut an agent out -------------------------------------------------------

  /** A call of agent that a static rule denies in words without a trust marker. */
  predicate UnmarkedDenial(op: Op, agent: string) {
    && op.Evaluation? && op.req.agentId == agent && op.setup.configErr.None? && !op.setup.dryRun
    && var w := Winner(op.setup.rules, op.req, op.setup.env);
       w.Some? && w.value.action == Deny && !TrustMarked(Render(ReasonOf(ByRule(w.value))))
  }

  lemma DenialStep(cfg: Trust.Config, states: Trust.States, op: Op, agent: string)
    requires agent != "" && UnmarkedDenial(op, agent)
    ensures IsBlocked(states, agent) ==> Next(cfg, states, op) == states
    ensures !IsBlocked(states, agent) ==> Next(cfg, states, op) == Trust.Recorded(cfg, states, agent, Trust.Failure)
  {
    if IsBlocked(states, agent) {
      BlockedCall(op.setup, cfg, states, op.req);
    } else {
      DenialCountsExactly(op.setup, cfg, states, op.req, Winner(op.setup.rules, op.req, op.setup.env).value);
    }
  }

  lemma OneMoreDenial(cfg: Trust.Config, b: Trust.Beta, n: nat)
    ensures Trust.FoldAll(cfg, b, Trust.Denials(n + 1)) == Trust.Fold(cfg, Trust.FoldAll(cfg, b, Trust.Denials(n)), Trust.Failure)
  {
    assert Trust.Denials(n + 1)[..n] == Trust.Denials(n);
  }

  /** Isolated, or every one of n denials since b has been scored. */
  ghost predicate Progressed(cfg: Trust.Config, states: Trust.States, agent: string, b: Trust.Beta, n: nat) {
    var now := Trust.Stored(cfg, states, agent);
    now.state == Isolated || now == Trust.FoldAll(cfg, b, Trust.Denials(n))
  }

  lemma DenialProgresses(cfg: Trust.Config, states: Trust.States, op: Op, agent: string, b: Trust.Beta, n: nat)
    requires agent != "" && UnmarkedDenial(op, agent) && b.state != Terminated && Progressed(cfg, states, agent, b, n)
    ensures Progressed(cfg, Next(cfg, states, op), agent, b, n + 1)
  {
    DenialStep(cfg, states, op, agent);
    OneMoreDenial(cfg, b, n);
    Trust.NeverTerminates(cfg, b, Trust.Denials(n));
  }

  lemma NoDenialsYet(cfg: Trust.Config, states: Trust.States, agent: string)
    ensures Progressed(cfg, states, agent, Trust.Stored(cfg, states, agent), 0)
  {
    assert Trust.Denials(0) == [];
  }

  lemma PrefixProgresses(cfg: Trust.Config, states: Trust.States, ops: seq<Op>, agent: string, b: Trust.Beta, i: nat)
    requires agent != "" && b.state != Terminated && i < |ops| && UnmarkedDenial(ops[i], agent)
    requires Progressed(cfg, After(cfg, states, ops[..i]), agent, b, i)
    ensures Progressed(cfg, After(cfg, states, ops[..i + 1]), agent, b, i + 1)
  {
    AfterAppend(cfg, states, ops[..i], ops[i]);
    assert ops[..i + 1] == ops[..i] + [ops[i]];
    DenialProgresses(cfg, After(cfg, states, ops[..i]), ops[i], agent, b, i);
  }

  /** Each denial in turn is scored, until the agent is isolated. */
  lemma DenialsProgress(cfg: Trust.Config, states: Trust.States, ops: seq<Op>, agent: string)
    requires agent != "" && Trust.Stored(cfg, states, agent).state != Terminated
    requires forall i :: 0 <= i < |ops| ==> UnmarkedDenial(ops[i], agent)
    ensures Progressed(cfg, After(cfg, states, ops), agent, Trust.Stored(cfg, states, agent), |ops|)
  {
    var b := Trust.Stored(cfg, states, agent);
    NoDenialsYet(cfg, states, agent);
    for i := 0 to |ops|
      invariant Progressed(cfg, After(cfg, states, ops[..i]), agent, b, i)
    {
      PrefixProgresses(cfg, states, ops, agent, b, i);
    }
    assert ops[..|ops|] == ops;
  }

  /** End to end: whatever other agents do, once the static rules have denied a
      live agent DenialBound times in unmarked words it is ISOLATED, and each of its
      calls from then on, until it is itself reset or terminated, is blocked. */
  lemma {:induction false} DenialsShutOut(cfg: Trust.Config, states: Trust.States, ops: seq<Op>, agent: string, later: seq<Op>, i: nat)
    requires agent != "" && Trust.Positive(cfg) && cfg.theta > 0.0
    requires var b := Trust.Stored(cfg, states, agent); b.alpha > 0.0 && b.beta > 0.0 && b.state != Terminated
    requires forall k :: 0 <= k < |OwnOps(ops, agent)| ==> UnmarkedDenial(OwnOps(ops, agent)[k], agent)
    requires |OwnOps(ops, agent)| >= Trust.DenialBound(cfg, Trust.Stored(cfg, states, agent))
    requires forall k :: 0 <= k < |later| ==> !Administers(later[k], agent)
    requires i < |later| && later[i].Evaluation? && later[i].req.agentId == agent && !later[i].setup.dryRun
    ensures var shut := After(cfg, states, ops);
            && agent in shut && shut[agent].state == Isolated
            && var answer := Answer(Over(later[i].setup, cfg, After(cfg, shut, later[..i])), later[i].req);
               answer.Some? && (answer.value.ruling.action == Deny || answer.value.ruling.action == CheckIndeterminate)
  {
    var own := OwnOps(ops, agent);
    Noninterference(cfg, states, ops, agent);
    DenialsProgress(cfg, states, own, agent);
    Trust.DenialsIsolate(cfg, Trust.Stored(cfg, states, agent), |own|);
    BlockedThroughout(cfg, After(cfg, states, ops), later, agent, i);
  }
}
