/** Laws of the decision pipeline over every collaborator. */
module PipelineLaws {
  import opened Text
  import opened Verdicts
  import opened Policy
  import opened Pipeline

  // --- Marking a failed check ------------------------------------------------------

  lemma MarkFacts(d: Decision, cf: CheckFailure, enforcing: bool)
    ensures var m := MarkEnforced(d, cf, enforcing);
            && m.check.Some? && m.dryRun == d.dryRun
            && m.ruling == (if enforcing && Allowed(d) then IndeterminateRuling(d.ruling, cf) else d.ruling)
            && (!VoidsPosture(cf.stage) ==> m.trustScore == d.trustScore)
  {
  }

  lemma SkipFacts(p: Setup, req: Request, d: Decision, ev: EvalDecision, denied: bool)
    ensures var r := RecordSkips(p, req, d, ev, denied);
            && r.dryRun == d.dryRun && r.trustScore == d.trustScore
            && (if denied then r.check.Some? && r.trustCountable == (r.ruling.action == Deny)
                else r.check == d.check && r.ruling == d.ruling && !r.trustCountable)
            && (!Allowed(d) || !Enforces(p, req) ==> r.ruling == d.ruling)
            && (Allowed(d) && Enforces(p, req) && denied ==> r.ruling.action == CheckIndeterminate)
  {
    MarkFacts(d, CheckFailure(PolicyEvalStage, SkipCategory(ev), RuleSkipped), Enforces(p, req));
  }

  /** What stage 4 does with a usable action: the ruling is the one taken up to
      the policy it names, or the failed-check ruling. */
  lemma AdoptFacts(p: Setup, req: Request, d: Decision, ev: EvalDecision)
    ensures var r := Adopt(p, req, d, ev, false);
            var t := TakeVerdict(p, req, d.ruling, ev);
            && r.Crashed? == t.crashed
            && r.decision.dryRun == d.dryRun && r.decision.trustScore == d.trustScore
            && (ev.action != EvalUnknown ==>
                  r.decision.check == d.check && r.decision.ruling.action == t.ruling.action && r.decision.ruling.mode == t.ruling.mode)
            && (ev.action == EvalUnknown ==> r.decision.check.Some?)
            && (ev.action == EvalUnknown ==> r.decision.ruling.action == MarkedAction(p, req, d.ruling.action))
            && (ev.action == EvalUnknown ==> r.decision.ruling.mode == d.ruling.mode || r.decision.ruling.mode == Deterministic)
  {
    if ev.action == EvalUnknown {
      MarkFacts(d, CheckFailure(PolicyEvalStage, InvalidResult, EvaluationUnknownAction), Enforces(p, req));
    }
  }

  function MarkedAction(p: Setup, req: Request, a: Action): Action {
    if Permits(a) && Enforces(p, req) then CheckIndeterminate else a
  }

  /** A deny beside skipped rules stands, is recorded on Check, and still counts
      for trust. */
  lemma DenyDespiteFault(p: Setup, req: Request, d: Decision, ev: EvalDecision)
    requires ev.action == EvalDeny
    ensures var r := Adopt(p, req, d, ev, true);
            && r.Concluded? && r.decision.ruling.action == Deny && r.decision.check.Some? && r.decision.trustCountable
            && r.decision.dryRun == d.dryRun
            && (r.decision.ruling.mode == d.ruling.mode || r.decision.ruling.mode == Deterministic)
  {
    var t := TakeVerdict(p, req, d.ruling, ev);
    var named := d.(ruling := NamePolicy(t.ruling, t.adopted, ev.matchedPolicy));
    SkipFacts(p, req, named, ev, true);
  }

  // --- What stage 1 tells the later stages -----------------------------------------------

  /** The trust checker is asked about this call. */
  predicate LooksUp(p: Setup, req: Request) {
    p.trust.Some? && req.agentId != ""
  }

  /** The posture the evaluator is told, read off the checker's own result: the
      checked state, UNKNOWN when the lookup or a required identity failed, and
      TRUSTED when nothing was asked. */
  function ToldPosture(p: Setup, req: Request): TrustState {
    if LooksUp(p, req) then
      match p.trust.value.check(req.agentId)
      case Value(state) => state
      case _ => Unknown
    else if p.requireAgentId && req.agentId == "" then Unknown
    else Trusted
  }

  /** The score it is told: 0.5 for a degraded agent, 0.0 when no posture was
      obtained, 1.0 otherwise. */
  function ToldScore(p: Setup, req: Request): real {
    if LooksUp(p, req) then
      match p.trust.value.check(req.agentId)
      case Value(Evaluating) => 0.5
      case Value(_) => 1.0
      case _ => 0.0
    else if p.requireAgentId && req.agentId == "" then 0.0
    else 1.0
  }

  /** The call gets past stage 1: an established agent is not shut out, and a failed
      identity or lookup only on a declared non-enforcing transport. */
  predicate PassesTrust(p: Setup, req: Request) {
    var enforcing := req.transport !in p.nonEnforcing;
    && (p.requireAgentId && req.agentId == "" ==> !enforcing)
    && (LooksUp(p, req) ==>
          match p.trust.value.check(req.agentId)
          case Value(state) => state != Isolated && state != Terminated
          case _ => !enforcing)
  }

  /** Stage 1, on the checker's own result: who gets past it, with what posture and
      score, and what a shut-out agent's decision says. */
  lemma StageOneTells(p: Setup, req: Request)
    ensures var s := AfterTrust(p, req);
            && (s.Go? <==> PassesTrust(p, req))
            && (s.Go? ==> s.posture == ToldPosture(p, req) && s.decision.trustScore == ToldScore(p, req))
            && (s.Go? ==> s.decision.trustState == ToldPosture(p, req))
            && (s.Done? && LooksUp(p, req) && p.trust.value.check(req.agentId).Value? ==>
                  var state := p.trust.value.check(req.agentId).value;
                  && s.decision.ruling.action == Deny && s.decision.ruling.reason == AgentBlocked(req.agentId, state)
                  && s.decision.trustScore == 0.0 && s.decision.trustState == state && s.decision.check.None?)
  {
  }

  // --- Configuration -------------------------------------------------------------------

  /** A configuration is valid exactly when every declared exception names a transport
      and a reason, neither of them blank, and every rule has a known action. */
  lemma ValidConfigExact(c: Config)
    ensures ValidConfig(c) <==>
              && (forall e :: e in c.nonEnforcing ==> !Blank(e.transport) && !Blank(e.reason))
              && (forall r :: r in c.rules ==> r.action in {Allow, Deny, Warn, Audit, Escalate, RequireApproval})
  {
    forall i | 0 <= i < |c.nonEnforcing|
      ensures TrimSpace(c.nonEnforcing[i].transport) != "" <==> !Blank(c.nonEnforcing[i].transport)
      ensures TrimSpace(c.nonEnforcing[i].reason) != "" <==> !Blank(c.nonEnforcing[i].reason)
    {
      TrimBlank(c.nonEnforcing[i].transport);
      TrimBlank(c.nonEnforcing[i].reason);
    }
  }

  // --- Fail closed -------------------------------------------------------------------

  ghost predicate IdentityPassed(p: Setup, req: Request) {
    p.requireAgentId ==> req.agentId != ""
  }

  ghost predicate TrustPassed(p: Setup, req: Request) {
    p.trust.Some? && req.agentId != "" ==>
      var c := p.trust.value.check(req.agentId);
      c.Value? && c.value != Isolated && c.value != Terminated
  }

  /** The interceptor returned, and what it returned lets the call through. */
  ghost predicate InterceptPassed(p: Setup, req: Request) {
    var c := p.intercept(req);
    c.Value? && (c.value.Some? && !c.value.value.allowed ==> c.value.value.action == Warn)
  }

  ghost predicate HandlerApproved(p: Setup, req: Request, ev: EvalDecision) {
    p.escalate.Some? && !p.dryRun &&
    var c := p.escalate.value(req, ev.escalationReason);
    c.Value? && c.value.Some? && Permits(c.value.value.action)
  }

  ghost predicate ActionPassed(p: Setup, req: Request, ev: EvalDecision) {
    ev.action == EvalAllow || ev.action == EvalWarn || (ev.action == EvalEscalate && HandlerApproved(p, req, ev))
  }

  /** The evaluator returned a decision, skipped no rule, and let the call
      through, or escalated it to a handler that did. */
  ghost predicate EvaluatorPassed(p: Setup, req: Request, score: real, posture: TrustState) {
    var c := p.evaluate(req, score, posture);
    c.Value? && c.value.Some? && !c.value.value.strictFailed && c.value.value.errors == [] && ActionPassed(p, req, c.value.value)
  }

  ghost predicate TrustUpdatePassed(p: Setup, req: Request, d: Decision) {
    Submits(p, req, d) ==>
      var c := Recorded(p, req, d);
      c.Value? && c.value.after != Isolated && c.value.after != Evaluating
  }

  lemma TrustStageClosed(p: Setup, req: Request)
    requires Enforces(p, req)
    ensures var s := AfterTrust(p, req);
            && (s.Done? ==> !Allowed(s.decision))
            && (s.Go? ==> s.decision.check.None? && s.decision.ruling.action == Allow && IdentityPassed(p, req) && TrustPassed(p, req))
  {
  }

  lemma StaticStageFacts(p: Setup, req: Request, d: Decision, posture: TrustState)
    requires d.ruling.action == Allow
    ensures var s := StaticStage(p, req, d, posture);
            && s.decision.ruling.action == StaticVerdict(p.rules, req, p.env)
            && s.decision.check == d.check && s.decision.trustScore == d.trustScore
            && s.decision.trustState == d.trustState && s.decision.dryRun == d.dryRun
            && s.decision.trustCountable == d.trustCountable
            && (AdoptableMode(d.ruling.mode) ==> AdoptableMode(s.decision.ruling.mode))
            && (s.Done? <==> s.decision.ruling.action == Deny)
            && (s.Go? ==> s.posture == posture)
  {
  }

  lemma InterceptFaulted(p: Setup, req: Request, d: Decision, posture: TrustState)
    requires InterceptFault(p.intercept(req)).Some?
    ensures var s := InterceptStage(p, req, d, posture);
            && s.decision.check.Some? && s.decision.dryRun == d.dryRun && s.decision.trustScore == d.trustScore
            && s.decision.ruling.action == MarkedAction(p, req, d.ruling.action)
            && (s.decision.ruling.mode == d.ruling.mode || s.decision.ruling.mode == Deterministic)
            && (s.Done? <==> !Allowed(s.decision))
            && (s.Go? ==> s.posture == posture)
  {
    MarkFacts(d, InterceptFault(p.intercept(req)).value, Enforces(p, req));
  }

  /** The verdict an interceptor's blocking result carries: an empty action means
      deny, and one outside the blocking vocabulary carries none. */
  function InterceptVerdict(p: Setup, req: Request): Action {
    var c := p.intercept(req);
    if c.Value? && c.value.Some? && !c.value.value.allowed then
      match c.value.value.action
      case Deny => Deny
      case Other(text) => if text == "" then Deny else Allow
      case RequireApproval => RequireApproval
      case Escalate => Escalate
      case Warn => Warn
      case _ => Allow
    else Allow
  }

  lemma InterceptValid(p: Setup, req: Request, d: Decision, posture: TrustState)
    requires InterceptFault(p.intercept(req)).None?
    ensures var s := InterceptStage(p, req, d, posture);
            && s.decision.check == d.check && s.decision.dryRun == d.dryRun && s.decision.trustScore == d.trustScore
            && s.decision.ruling.action == Stricter(d.ruling.action, InterceptVerdict(p, req))
            && (s.decision.ruling.mode == d.ruling.mode || s.decision.ruling.mode == Deterministic)
            && (s.Done? ==> s.decision.ruling.action == Deny)
            && (s.Go? ==> s.posture == posture)
            && IsVerdict(InterceptVerdict(p, req))
  {
  }

  lemma InterceptStageClosed(p: Setup, req: Request, d: Decision, posture: TrustState)
    requires Enforces(p, req) && IsVerdict(d.ruling.action)
    ensures var s := InterceptStage(p, req, d, posture);
            && (s.Done? ==> !Allowed(s.decision))
            && (s.Go? ==> s.decision.check == d.check && IsVerdict(s.decision.ruling.action))
            && (s.Go? && Allowed(s.decision) ==> Allowed(d) && InterceptPassed(p, req))
  {
    if InterceptFault(p.intercept(req)).Some? {
      InterceptFaulted(p, req, d, posture);
    } else {
      InterceptValid(p, req, d, posture);
    }
  }

  /** A relayed resolution that permits is the handler's own. */
  lemma EscalationClosed(p: Setup, req: Request, v: Ruling, ev: EvalDecision)
    requires IsVerdict(v.action)
    ensures var t := TakeEscalation(p, req, v, ev);
            !t.crashed && Permits(t.ruling.action) ==> Permits(v.action) && HandlerApproved(p, req, ev)
  {
  }

  lemma VerdictClosed(p: Setup, req: Request, v: Ruling, ev: EvalDecision)
    requires IsVerdict(v.action) && ev.action != EvalUnknown
    ensures var t := TakeVerdict(p, req, v, ev);
            !t.crashed && Permits(t.ruling.action) ==> Permits(v.action) && ActionPassed(p, req, ev)
  {
    EscalationClosed(p, req, v, ev);
  }

  lemma {:induction false} EvalStageClosed(p: Setup, req: Request, d: Decision, posture: TrustState)
    requires Enforces(p, req) && IsVerdict(d.ruling.action)
    ensures var r := EvalStage(p, req, d, posture);
            r.Concluded? && Allowed(r.decision) ==>
              Allowed(d) && r.decision.check == d.check && EvaluatorPassed(p, req, d.trustScore, posture)
  {
    var c := p.evaluate(req, d.trustScore, posture);
    if EvalFault(c).Some? {
      MarkFacts(d, EvalFault(c).value, true);
    } else {
      var ev := c.value.value;
      if ev.errors == [] {
        AdoptFacts(p, req, d, ev);
        if ev.action != EvalUnknown {
          VerdictClosed(p, req, d.ruling, ev);
        }
      } else if ev.action == EvalDeny {
        DenyDespiteFault(p, req, d, ev);
      } else {
        MarkFacts(d, CheckFailure(PolicyEvalStage, SkipCategory(ev), RuleSkipped), true);
      }
    }
  }

  lemma SettleClosed(p: Setup, req: Request, d: Decision)
    requires Enforces(p, req)
    ensures Allowed(Settle(p, req, d)) ==>
              Allowed(d) && Settle(p, req, d).check == d.check && TrustUpdatePassed(p, req, d)
  {
    if Submits(p, req, d) && !Recorded(p, req, d).Value? {
      MarkFacts(d, CheckFailure(TrustUpdateStage, FaultOf(Recorded(p, req, d)), TrustUpdateFailed), true);
    }
  }

  lemma StagesClosed(p: Setup, req: Request)
    requires Enforces(p, req)
    ensures var s := AfterIntercept(p, req);
            && (s.Done? ==> !Allowed(s.decision))
            && (s.Go? ==> s.decision.check.None? && IsVerdict(s.decision.ruling.action) && IdentityPassed(p, req) && TrustPassed(p, req))
            && (s.Go? && Allowed(s.decision) ==>
                  Permits(StaticVerdict(p.rules, req, p.env)) && InterceptPassed(p, req))
  {
    TrustStageClosed(p, req);
    var s1 := AfterTrust(p, req);
    if s1.Go? {
      StaticStageFacts(p, req, s1.decision, s1.posture);
      var s2 := AfterStatic(p, req);
      if s2.Go? {
        InterceptStageClosed(p, req, s2.decision, s2.posture);
      }
    }
  }

  /** Fail closed, end to end: with dry-run off and an enforcing transport, a
      permitting answer means every check produced a valid result that let the
      call through, and nothing is recorded on Check. */
  lemma {:induction false} FailClosed(p: Setup, req: Request)
    requires !p.dryRun && req.transport !in p.nonEnforcing
    requires Answer(p, req).Some? && Allowed(Answer(p, req).value)
    ensures Answer(p, req).value.check.None?
    ensures p.configErr.None? && IdentityPassed(p, req) && TrustPassed(p, req)
    ensures Permits(StaticVerdict(p.rules, req, p.env)) && InterceptPassed(p, req)
    ensures AfterIntercept(p, req).Go? && AfterTrust(p, req).Go?
    ensures EvaluatorPassed(p, req, ToldScore(p, req), ToldPosture(p, req))
    ensures TrustUpdatePassed(p, req, Deliberate(p, req).decision)
  {
    StageOneTells(p, req);
    SettleClosed(p, req, Deliberate(p, req).decision);
    StagesClosed(p, req);
    var s := AfterIntercept(p, req);
    if s.Go? {
      StagesVerdict(p, req);
      EvalStageClosed(p, req, s.decision, s.posture);
    }
  }

  lemma StagesOpen(p: Setup, req: Request)
    requires Enforces(p, req) && IdentityPassed(p, req) && TrustPassed(p, req)
    requires Permits(StaticVerdict(p.rules, req, p.env)) && InterceptPassed(p, req)
    ensures AfterIntercept(p, req).Go? && Allowed(AfterIntercept(p, req).decision)
  {
    TrustStageClosed(p, req);
    TrustStageOpen(p, req);
    var s1 := AfterTrust(p, req);
    StaticStageFacts(p, req, s1.decision, s1.posture);
    InterceptValid(p, req, AfterStatic(p, req).decision, s1.posture);
  }

  lemma TrustStageOpen(p: Setup, req: Request)
    requires IdentityPassed(p, req) && TrustPassed(p, req)
    ensures AfterTrust(p, req).Go?
  {
  }

  lemma VerdictOpen(p: Setup, req: Request, v: Ruling, ev: EvalDecision)
    requires Permits(v.action) && ActionPassed(p, req, ev)
    ensures var t := TakeVerdict(p, req, v, ev);
            !t.crashed && Permits(t.ruling.action)
  {
  }

  lemma EvalStageOpen(p: Setup, req: Request, d: Decision, posture: TrustState)
    requires Allowed(d) && EvaluatorPassed(p, req, d.trustScore, posture)
    ensures EvalStage(p, req, d, posture).Concluded? && Allowed(EvalStage(p, req, d, posture).decision)
  {
    var ev := p.evaluate(req, d.trustScore, posture).value.value;
    AdoptFacts(p, req, d, ev);
    VerdictOpen(p, req, d.ruling, ev);
  }

  /** Every required check passed, each judged on its collaborator's own result. */
  ghost predicate EveryCheckPassed(p: Setup, req: Request) {
    && p.configErr.None? && IdentityPassed(p, req) && TrustPassed(p, req)
    && Permits(StaticVerdict(p.rules, req, p.env)) && InterceptPassed(p, req)
    && EvaluatorPassed(p, req, ToldScore(p, req), ToldPosture(p, req))
    && TrustUpdatePassed(p, req, Deliberate(p, req).decision)
  }

  /** The exact condition for a permitting answer on an enforcing transport with
      dry-run off. */
  lemma {:induction false} PermitsExactly(p: Setup, req: Request)
    requires !p.dryRun && req.transport !in p.nonEnforcing
    ensures Answer(p, req).Some? && Allowed(Answer(p, req).value) <==> EveryCheckPassed(p, req)
  {
    StageOneTells(p, req);
    if Answer(p, req).Some? && Allowed(Answer(p, req).value) {
      FailClosed(p, req);
    }
    if EveryCheckPassed(p, req) {
      StagesOpen(p, req);
      StagesVerdict(p, req);
      var s := AfterIntercept(p, req);
      EvalStageOpen(p, req, s.decision, s.posture);
    }
  }

  /** A configuration error is check_indeterminate on every transport, even under
      dry-run, and touches no trust. */
  lemma ConfigErrorStands(p: Setup, req: Request)
    requires p.configErr.Some?
    ensures Answer(p, req).Some?
    ensures Answer(p, req).value.ruling.action == CheckIndeterminate && !Answer(p, req).value.dryRun
    ensures Answer(p, req).value.check == Some(CheckFailure(ConfigStage, MissingConfig, ConfigInvalid(p.configErr.value)))
    ensures !Submits(p, req, Deliberate(p, req).decision)
    ensures var e := Events(p, req, Deliberate(p, req).decision);
            |e| == 1 && e[0].ruling.action == CheckIndeterminate && !e[0].dryRun
  {
  }

  // --- Most restrictive wins ------------------------------------------------------------

  /** The verdict the evaluator's decision carries. */
  function EvalVerdict(p: Setup, req: Request, score: real, posture: TrustState): Action {
    match p.evaluate(req, score, posture)
    case Value(Some(ev)) => VerdictOf(ev.action)
    case _ => Allow
  }

  function VerdictOf(a: EvalAction): Action {
    match a
    case EvalAllow => Allow
    case EvalWarn => Warn
    case EvalRequireApproval => RequireApproval
    case EvalEscalate => Escalate
    case EvalDeny => Deny
    case EvalUnknown => Allow
  }

  lemma TakeVerdictStricter(p: Setup, req: Request, v: Ruling, ev: EvalDecision)
    requires p.escalate.None?
    ensures var t := TakeVerdict(p, req, v, ev);
            !t.crashed && t.ruling.action == Stricter(v.action, VerdictOf(ev.action))
  {
  }

  lemma EvalStageVerdict(p: Setup, req: Request, d: Decision, posture: TrustState)
    requires p.escalate.None? && d.check.None?
    ensures var r := EvalStage(p, req, d, posture);
            && r.Concluded?
            && (r.decision.check.None? ==>
                  r.decision.ruling.action == Stricter(d.ruling.action, EvalVerdict(p, req, d.trustScore, posture)))
  {
    var c := p.evaluate(req, d.trustScore, posture);
    if EvalFault(c).Some? {
      MarkFacts(d, EvalFault(c).value, Enforces(p, req));
    } else {
      var ev := c.value.value;
      if ev.errors == [] {
        AdoptFacts(p, req, d, ev);
        TakeVerdictStricter(p, req, d.ruling, ev);
      } else if ev.action == EvalDeny {
        DenyDespiteFault(p, req, d, ev);
      } else {
        var marked := Mark(p, req, d, PolicyEvalStage, SkipCategory(ev), RuleSkipped);
        MarkFacts(d, CheckFailure(PolicyEvalStage, SkipCategory(ev), RuleSkipped), Enforces(p, req));
        AdoptFacts(p, req, marked, ev);
        TakeVerdictStricter(p, req, marked.ruling, ev);
      }
    }
  }

  /** The strictest verdict of the static rules and the interceptor. */
  function FloorVerdict(p: Setup, req: Request): Action {
    Stricter(StaticVerdict(p.rules, req, p.env), InterceptVerdict(p, req))
  }

  lemma TrustGoAllows(p: Setup, req: Request)
    ensures AfterTrust(p, req).Go? ==> AfterTrust(p, req).decision.ruling.action == Allow
  {
  }

  /** Where the first three stages leave the decision, past the trust check. */
  lemma StagesVerdict(p: Setup, req: Request)
    requires AfterTrust(p, req).Go?
    ensures var s, t := AfterIntercept(p, req), AfterTrust(p, req);
            && s.decision.trustScore == t.decision.trustScore
            && (s.Go? ==> s.posture == t.posture && IsVerdict(s.decision.ruling.action))
            && (s.decision.check.None? ==> t.decision.check.None? && s.decision.ruling.action == FloorVerdict(p, req))
            && (s.Done? && s.decision.check.None? ==> s.decision.ruling.action == Deny)
            && NotBelow(s.decision.ruling.action, FloorVerdict(p, req)) && IsVerdict(FloorVerdict(p, req))
  {
    TrustGoAllows(p, req);
    var s1 := AfterTrust(p, req);
    StaticStageFacts(p, req, s1.decision, s1.posture);
    var s2 := AfterStatic(p, req);
    if InterceptFault(p.intercept(req)).Some? {
      InterceptFaulted(p, req, s2.decision, s1.posture);
    } else {
      InterceptValid(p, req, s2.decision, s1.posture);
    }
  }

  /** Most restrictive wins: past the trust check, with no failed check and no
      handler, the verdict before the trust update is exactly the strictest of
      the static, interceptor and evaluator verdicts. */
  lemma {:induction false} MostRestrictiveWins(p: Setup, req: Request)
    requires p.configErr.None? && p.escalate.None? && PassesTrust(p, req)
    ensures Deliberate(p, req).Concluded?
    ensures Deliberate(p, req).decision.check.None? ==>
              Deliberate(p, req).decision.ruling.action
              == Stricter(FloorVerdict(p, req), EvalVerdict(p, req, ToldScore(p, req), ToldPosture(p, req)))
  {
    StageOneTells(p, req);
    StagesVerdict(p, req);
    var s := AfterIntercept(p, req);
    if s.Go? {
      if s.decision.check.None? {
        EvalStageVerdict(p, req, s.decision, s.posture);
      } else {
        EvalStageKeepsCheck(p, req, s.decision, s.posture);
      }
    }
  }

  lemma EvalStageKeepsCheck(p: Setup, req: Request, d: Decision, posture: TrustState)
    requires d.check.Some?
    ensures EvalStage(p, req, d, posture).decision.check.Some?
    ensures p.escalate.None? ==> EvalStage(p, req, d, posture).Concluded?
  {
    var c := p.evaluate(req, d.trustScore, posture);
    if EvalFault(c).None? {
      var ev := c.value.value;
      AdoptFacts(p, req, d, ev);
      AdoptFacts(p, req, Mark(p, req, d, PolicyEvalStage, SkipCategory(ev), RuleSkipped), ev);
      if ev.action == EvalDeny {
        DenyDespiteFault(p, req, d, ev);
      }
    }
  }

  // --- A handler never lowers the verdict ---------------------------------------------------

  /** At least as strict as floor, or the block a failed check puts in place of a
      permitting verdict. */
  ghost predicate NotBelow(a: Action, floor: Action) {
    VerdictRank(a) >= VerdictRank(floor) || (a == CheckIndeterminate && Permits(floor))
  }

  lemma TakeVerdictNotBelow(p: Setup, req: Request, v: Ruling, ev: EvalDecision)
    ensures VerdictRank(TakeVerdict(p, req, v, ev).ruling.action) >= VerdictRank(v.action)
  {
  }

  /** Whatever the evaluator and an escalation handler answer, stage 4 never ends
      below the verdict it started from. */
  lemma {:induction false} HandlerNeverLowers(p: Setup, req: Request, d: Decision, posture: TrustState)
    ensures NotBelow(EvalStage(p, req, d, posture).decision.ruling.action, d.ruling.action)
  {
    var c := p.evaluate(req, d.trustScore, posture);
    if EvalFault(c).Some? {
      MarkFacts(d, EvalFault(c).value, Enforces(p, req));
    } else {
      var ev := c.value.value;
      if ev.errors == [] {
        AdoptFacts(p, req, d, ev);
        TakeVerdictNotBelow(p, req, d.ruling, ev);
      } else if ev.action == EvalDeny {
        DenyDespiteFault(p, req, d, ev);
      } else {
        var marked := Mark(p, req, d, PolicyEvalStage, SkipCategory(ev), RuleSkipped);
        MarkFacts(d, CheckFailure(PolicyEvalStage, SkipCategory(ev), RuleSkipped), Enforces(p, req));
        AdoptFacts(p, req, marked, ev);
        TakeVerdictNotBelow(p, req, marked.ruling, ev);
      }
    }
  }

  /** With any handler: past the trust check, deliberation never ends below the
      static and interceptor verdicts. */
  lemma {:induction false} NeverBelowFloor(p: Setup, req: Request)
    requires p.configErr.None? && AfterTrust(p, req).Go?
    ensures NotBelow(Deliberate(p, req).decision.ruling.action, FloorVerdict(p, req))
  {
    StagesVerdict(p, req);
    var s := AfterIntercept(p, req);
    if s.Go? {
      HandlerNeverLowers(p, req, s.decision, s.posture);
    }
  }

  /** The trust update leaves a blocking verdict alone and can only raise a
      permitting one. */
  lemma TrustUpdateOnlyRaises(p: Setup, req: Request, d: Decision)
    ensures !Allowed(d) ==> Settle(p, req, d).ruling == d.ruling
    ensures Allowed(d) ==> Settle(p, req, d).ruling.action in {d.ruling.action, RequireApproval, Deny, CheckIndeterminate}
    ensures Settle(p, req, d).ruling.mode == d.ruling.mode || Settle(p, req, d).ruling.mode == Deterministic
    ensures Settle(p, req, d).dryRun == d.dryRun
  {
    if Submits(p, req, d) && !Recorded(p, req, d).Value? {
      MarkFacts(d, CheckFailure(TrustUpdateStage, FaultOf(Recorded(p, req, d)), TrustUpdateFailed), Enforces(p, req));
    }
  }

  /** End to end: with dry-run off the answer itself, trust update included, never
      ends below the static and interceptor verdicts. */
  lemma {:induction false} AnswerNeverBelowFloor(p: Setup, req: Request)
    requires p.configErr.None? && !p.dryRun && AfterTrust(p, req).Go?
    ensures Answer(p, req).Some? ==> NotBelow(Answer(p, req).value.ruling.action, FloorVerdict(p, req))
  {
    NeverBelowFloor(p, req);
    StagesVerdict(p, req);
    TrustUpdateOnlyRaises(p, req, Deliberate(p, req).decision);
  }

  /** A permitting answer with dry-run off, on any transport: the configuration is
      valid and the trust check let the call through to stage 2. */
  lemma PermittedPassedTrust(p: Setup, req: Request)
    requires !p.dryRun
    ensures Answer(p, req).Some? && Allowed(Answer(p, req).value) ==> p.configErr.None? && AfterTrust(p, req).Go?
  {
    TrustUpdateOnlyRaises(p, req, Deliberate(p, req).decision);
    TrustDoneBlocks(p, req);
  }

  lemma TrustDoneBlocks(p: Setup, req: Request)
    ensures AfterTrust(p, req).Done? ==> !Allowed(AfterTrust(p, req).decision)
  {
  }

  /** A static deny stands on every transport, declared non-enforcing ones
      included, whatever the collaborators do. */
  lemma {:induction false} StaticDenyStands(p: Setup, req: Request)
    requires !p.dryRun && StaticVerdict(p.rules, req, p.env) == Deny
    ensures Answer(p, req).Some? ==> !Allowed(Answer(p, req).value)
  {
    PermittedPassedTrust(p, req);
    if Answer(p, req).Some? && Allowed(Answer(p, req).value) {
      AnswerNeverBelowFloor(p, req);
    }
  }

  // --- No decision ever claims a proof --------------------------------------------------------

  /** Adoptable and not yet converted by dry-run. */
  ghost predicate Sound(d: Decision) {
    AdoptableMode(d.ruling.mode) && !d.dryRun
  }

  lemma TrustStageSound(p: Setup, req: Request)
    ensures Sound(AfterTrust(p, req).decision)
  {
  }

  lemma InterceptStageSound(p: Setup, req: Request, d: Decision, posture: TrustState)
    requires Sound(d)
    ensures Sound(InterceptStage(p, req, d, posture).decision)
  {
    if InterceptFault(p.intercept(req)).Some? {
      InterceptFaulted(p, req, d, posture);
    } else {
      InterceptValid(p, req, d, posture);
    }
  }

  lemma TakeVerdictAdoptable(p: Setup, req: Request, v: Ruling, ev: EvalDecision)
    requires AdoptableMode(v.mode)
    ensures AdoptableMode(TakeVerdict(p, req, v, ev).ruling.mode)
  {
  }

  lemma EvalStageSound(p: Setup, req: Request, d: Decision, posture: TrustState)
    requires Sound(d)
    ensures Sound(EvalStage(p, req, d, posture).decision)
  {
    var c := p.evaluate(req, d.trustScore, posture);
    if EvalFault(c).Some? {
      MarkFacts(d, EvalFault(c).value, Enforces(p, req));
    } else {
      var ev := c.value.value;
      if ev.errors == [] {
        AdoptFacts(p, req, d, ev);
        TakeVerdictAdoptable(p, req, d.ruling, ev);
      } else if ev.action == EvalDeny {
        DenyDespiteFault(p, req, d, ev);
      } else {
        var marked := Mark(p, req, d, PolicyEvalStage, SkipCategory(ev), RuleSkipped);
        MarkFacts(d, CheckFailure(PolicyEvalStage, SkipCategory(ev), RuleSkipped), Enforces(p, req));
        AdoptFacts(p, req, marked, ev);
        TakeVerdictAdoptable(p, req, marked.ruling, ev);
      }
    }
  }

  lemma DeliberationSound(p: Setup, req: Request)
    ensures Sound(Deliberate(p, req).decision)
  {
    if p.configErr.None? {
      TrustStageSound(p, req);
      TrustGoAllows(p, req);
      var s1 := AfterTrust(p, req);
      if s1.Go? {
        StaticStageFacts(p, req, s1.decision, s1.posture);
        var s2 := AfterStatic(p, req);
        if s2.Go? {
          InterceptStageSound(p, req, s2.decision, s2.posture);
          var s3 := AfterIntercept(p, req);
          if s3.Go? {
            EvalStageSound(p, req, s3.decision, s3.posture);
          }
        }
      }
    }
  }

  /** Neither the answer nor any audit event is labelled proved, whatever rules,
      handlers and evaluators claim. */
  lemma {:induction false} NeverProved(p: Setup, req: Request)
    ensures Answer(p, req).Some? ==> Answer(p, req).value.ruling.mode != Proved
    ensures forall e :: e in Events(p, req, Deliberate(p, req).decision) ==> e.ruling.mode != Proved
  {
    DeliberationSound(p, req);
    TrustUpdateOnlyRaises(p, req, Deliberate(p, req).decision);
  }

  /** The blocks dry-run lets through: denials and failed checks, unless the
      configuration itself is invalid. */
  ghost predicate LetThrough(p: Setup, a: Action) {
    p.dryRun && p.configErr.None? && a in {Deny, CheckIndeterminate}
  }

  /** A transition event says from which state to which, and after what. */
  ghost predicate Announces(r: Reason, u: TrustUpdate) {
    r.Plain? && r.text == "trust " + TrustStateName(u.before) + " -> " + TrustStateName(u.after) + " after " + u.outcome
  }

  /** Exactly one decision event per call, carrying the verdict before dry-run
      conversion; the answer differs from it only where dry-run lets a block through,
      and then says so.  A second event reports the trust state exactly when the
      update changed it. */
  lemma AuditedOnce(p: Setup, req: Request)
    ensures var d := Deliberate(p, req).decision;
            var e := Events(p, req, d);
            && !e[0].transition && e[0].request == req
            && (e[0].dryRun <==> LetThrough(p, e[0].ruling.action))
            && (if Submits(p, req, d) && Recorded(p, req, d).Value? && Recorded(p, req, d).value.transition
                then |e| == 2 && e[1].transition && !e[1].dryRun && e[1].request == req && e[1].check.None?
                     && e[1].trustState == Recorded(p, req, d).value.after && e[1].trustScore == Recorded(p, req, d).value.score
                     && e[1].ruling.action == e[0].ruling.action && e[1].ruling.credit == e[0].ruling.credit && e[1].ruling.mode == Deterministic
                     && Announces(e[1].ruling.reason, Recorded(p, req, d).value)
                else |e| == 1)
            && (Answer(p, req).Some? ==> Audits(e[0], Answer(p, req).value))
  {
    DeliberationSound(p, req);
    TrustUpdateOnlyRaises(p, req, Deliberate(p, req).decision);
  }

  /** The event tells of this answer. */
  ghost predicate Audits(e: AuditEvent, answer: Decision) {
    && e.trustScore == answer.trustScore && e.trustState == answer.trustState
    && e.check == answer.check && e.matchedRules == answer.matchedRules && e.dryRun == answer.dryRun
    && answer.ruling == if !e.dryRun then e.ruling
                        else e.ruling.(action := Allow, reason := DryRunWould(e.ruling.action == CheckIndeterminate, e.ruling.reason))
  }

  /** What a trust update that comes back does to the decision. */
  lemma TrustUpdateExact(p: Setup, req: Request, d: Decision)
    requires Submits(p, req, d) && Recorded(p, req, d).Value?
    ensures var u, e := Recorded(p, req, d).value, Settle(p, req, d);
            && e.trustScore == u.score && e.trustState == u.after && e.check == d.check && e.matchedRules == d.matchedRules
            && (u.after == Isolated && d.ruling.action in {Allow, Warn} ==>
                  e.ruling == d.ruling.(action := Deny, reason := AgentBlocked(req.agentId, Isolated)))
            && (u.after == Evaluating && d.ruling.action in {Allow, Warn} ==>
                  e.ruling == d.ruling.(action := RequireApproval, reason := AgentDegraded(req.agentId)))
            && (u.after !in {Isolated, Evaluating} || d.ruling.action !in {Allow, Warn} ==> e.ruling == d.ruling)
  {
  }

  // --- Rule order and the deliberated verdict -------------------------------------------------------

  /** Two decisions that differ at most in reason, mode and attribution. */
  ghost predicate SameVerdict(d: Decision, e: Decision) {
    && d.ruling.action == e.ruling.action && d.check == e.check && d.trustScore == e.trustScore
    && d.trustCountable == e.trustCountable
  }

  ghost predicate SameStaged(s: Staged, t: Staged) {
    s.Done? == t.Done? && SameVerdict(s.decision, t.decision) && (s.Go? ==> s.posture == t.posture)
  }

  ghost predicate SameDeliberation(s: Deliberation, t: Deliberation) {
    s.Crashed? == t.Crashed? && SameVerdict(s.decision, t.decision)
  }

  /** The same pipeline with its rules in another order. */
  ghost predicate Reordered(p: Setup, q: Setup) {
    q == p.(rules := q.rules) && multiset(p.rules) == multiset(q.rules)
  }

  lemma MarkSame(d: Decision, e: Decision, cf: CheckFailure, enforcing: bool)
    requires SameVerdict(d, e)
    ensures SameVerdict(MarkEnforced(d, cf, enforcing), MarkEnforced(e, cf, enforcing))
  {
  }

  lemma StaticSame(p: Setup, q: Setup, req: Request, d: Decision, posture: TrustState)
    requires Reordered(p, q) && d.ruling.action == Allow
    ensures SameStaged(StaticStage(p, req, d, posture), StaticStage(q, req, d, posture))
  {
    StaticVerdictPermutes(p.rules, q.rules, req, p.env);
    StaticStageFacts(p, req, d, posture);
    StaticStageFacts(q, req, d, posture);
  }

  lemma InterceptSame(p: Setup, q: Setup, req: Request, d: Decision, e: Decision, posture: TrustState)
    requires Reordered(p, q) && SameVerdict(d, e)
    ensures SameStaged(InterceptStage(p, req, d, posture), InterceptStage(q, req, e, posture))
  {
    var fault := InterceptFault(p.intercept(req));
    if fault.Some? {
      MarkSame(d, e, fault.value, Enforces(p, req));
    }
  }

  lemma EscalationSame(p: Setup, q: Setup, req: Request, v: Ruling, w: Ruling, ev: EvalDecision)
    requires Reordered(p, q) && v.action == w.action
    ensures var s, t := TakeEscalation(p, req, v, ev), TakeEscalation(q, req, w, ev);
            s.ruling.action == t.ruling.action && s.crashed == t.crashed
  {
    if IsStricter(v, Escalate) && p.escalate.Some? && !p.dryRun {
      var c := p.escalate.value(req, ev.escalationReason);
      if !c.Panic? {
        ResolveSame(AdoptStricter(v, Escalate, ev.escalationReason).(mode := Classified),
                    AdoptStricter(w, Escalate, ev.escalationReason).(mode := Classified), c);
      }
    }
  }

  lemma ResolveSame(v: Ruling, w: Ruling, c: Call<Option<Resolution>>)
    requires !c.Panic?
    ensures Resolve(v, c).action == Resolve(w, c).action
  {
  }

  lemma TakeSame(p: Setup, q: Setup, req: Request, v: Ruling, w: Ruling, ev: EvalDecision)
    requires Reordered(p, q) && v.action == w.action
    ensures var s, t := TakeVerdict(p, req, v, ev), TakeVerdict(q, req, w, ev);
            s.ruling.action == t.ruling.action && s.crashed == t.crashed
  {
    EscalationSame(p, q, req, v, w, ev);
  }

  lemma ActionSame(p: Setup, q: Setup, req: Request, d: Decision, e: Decision, ev: EvalDecision)
    requires Reordered(p, q) && SameVerdict(d, e)
    ensures SameVerdict(TakeAction(p, req, d, ev), TakeAction(q, req, e, ev))
  {
    TakeSame(p, q, req, d.ruling, e.ruling, ev);
    MarkSame(d, e, CheckFailure(PolicyEvalStage, InvalidResult, EvaluationUnknownAction), Enforces(p, req));
  }

  lemma SkipsSame(p: Setup, q: Setup, req: Request, d: Decision, e: Decision, ev: EvalDecision, denied: bool)
    requires Reordered(p, q) && SameVerdict(d, e)
    ensures SameVerdict(RecordSkips(p, req, d, ev, denied), RecordSkips(q, req, e, ev, denied))
  {
    MarkSame(d, e, CheckFailure(PolicyEvalStage, SkipCategory(ev), RuleSkipped), Enforces(p, req));
  }

  lemma AdoptSame(p: Setup, q: Setup, req: Request, d: Decision, e: Decision, ev: EvalDecision, denied: bool)
    requires Reordered(p, q) && SameVerdict(d, e)
    ensures SameDeliberation(Adopt(p, req, d, ev, denied), Adopt(q, req, e, ev, denied))
  {
    TakeSame(p, q, req, d.ruling, e.ruling, ev);
    ActionSame(p, q, req, d, e, ev);
    var s, t := TakeVerdict(p, req, d.ruling, ev), TakeVerdict(q, req, e.ruling, ev);
    var d1, e1 := TakeAction(p, req, d, ev), TakeAction(q, req, e, ev);
    SkipsSame(p, q, req, d1.(ruling := NamePolicy(d1.ruling, s.adopted, ev.matchedPolicy)),
              e1.(ruling := NamePolicy(e1.ruling, t.adopted, ev.matchedPolicy)), ev, denied);
  }

  lemma EvalSame(p: Setup, q: Setup, req: Request, d: Decision, e: Decision, posture: TrustState)
    requires Reordered(p, q) && SameVerdict(d, e)
    ensures SameDeliberation(EvalStage(p, req, d, posture), EvalStage(q, req, e, posture))
  {
    var c := p.evaluate(req, d.trustScore, posture);
    if EvalFault(c).Some? {
      MarkSame(d, e, EvalFault(c).value, Enforces(p, req));
    } else {
      var ev := c.value.value;
      MarkSame(d, e, CheckFailure(PolicyEvalStage, SkipCategory(ev), RuleSkipped), Enforces(p, req));
      AdoptSame(p, q, req, d, e, ev, ev.errors != []);
      AdoptSame(p, q, req, Mark(p, req, d, PolicyEvalStage, SkipCategory(ev), RuleSkipped),
                Mark(q, req, e, PolicyEvalStage, SkipCategory(ev), RuleSkipped), ev, false);
    }
  }

  /** Permuting the static rules changes neither the verdict the whole pipeline
      reaches before the trust update, nor the failed check it records. */
  lemma {:induction false} RuleOrderIrrelevant(p: Setup, q: Setup, req: Request)
    requires Reordered(p, q)
    ensures SameDeliberation(Deliberate(p, req), Deliberate(q, req))
  {
    assert AfterTrust(p, req) == AfterTrust(q, req);
    TrustGoAllows(p, req);
    var s1 := AfterTrust(p, req);
    if s1.Go? {
      StaticSame(p, q, req, s1.decision, s1.posture);
      var s2, t2 := AfterStatic(p, req), AfterStatic(q, req);
      if s2.Go? {
        InterceptSame(p, q, req, s2.decision, t2.decision, s2.posture);
        var s3, t3 := AfterIntercept(p, req), AfterIntercept(q, req);
        if s3.Go? {
          EvalSame(p, q, req, s3.decision, t3.decision, s3.posture);
        }
      }
    }
  }

  // --- Dry-run is a faithful simulation ----------------------------------------------------------

  /** Folding this verdict in means asking the handler. */
  predicate Awaits(p: Setup, v: Ruling, ev: EvalDecision) {
    p.escalate.Some? && ev.action == EvalEscalate && IsStricter(v, Escalate)
  }

  /** The call gets as far as the handler, read off the collaborators: the evaluator
      escalates it, the earlier verdict ranks below escalate, and neither a failed
      interceptor nor a skipped rule blocks it first. */
  predicate Asked(p: Setup, req: Request) {
    var enforcing := req.transport !in p.nonEnforcing;
    && p.configErr.None? && PassesTrust(p, req) && p.escalate.Some?
    && (InterceptFault(p.intercept(req)).Some? ==> !enforcing)
    && VerdictRank(FloorVerdict(p, req)) < VerdictRank(Escalate)
    && var c := p.evaluate(req, ToldScore(p, req), ToldPosture(p, req));
       && EvalFault(c).None? && c.value.value.action == EvalEscalate
       && (c.value.value.errors == [] || !enforcing)
  }

  /** The same at stage 4. */
  predicate AskedAtStage(p: Setup, req: Request) {
    && p.configErr.None? && AfterIntercept(p, req).Go?
    && AskedAt(p, req, AfterIntercept(p, req).decision, AfterIntercept(p, req).posture)
  }

  lemma StageFourVerdict(p: Setup, req: Request)
    requires AfterIntercept(p, req).Go?
    ensures AfterIntercept(p, req).decision.ruling.action == FloorVerdict(p, req)
    ensures InterceptFault(p.intercept(req)).Some? ==> !Enforces(p, req)
  {
    TrustGoAllows(p, req);
    var s1 := AfterTrust(p, req);
    StaticStageFacts(p, req, s1.decision, s1.posture);
    var s2 := AfterStatic(p, req);
    if InterceptFault(p.intercept(req)).Some? {
      InterceptFaulted(p, req, s2.decision, s2.posture);
      FaultHasNoVerdict(p, req);
    } else {
      InterceptValid(p, req, s2.decision, s2.posture);
    }
  }

  lemma FaultHasNoVerdict(p: Setup, req: Request)
    requires InterceptFault(p.intercept(req)).Some?
    ensures InterceptVerdict(p, req) == Allow
  {
  }

  lemma StageFourReached(p: Setup, req: Request)
    requires AfterTrust(p, req).Go? && VerdictRank(FloorVerdict(p, req)) < VerdictRank(Escalate)
    requires InterceptFault(p.intercept(req)).Some? ==> !Enforces(p, req)
    ensures AfterIntercept(p, req).Go?
  {
    TrustGoAllows(p, req);
    var s1 := AfterTrust(p, req);
    StaticStageFacts(p, req, s1.decision, s1.posture);
    var s2 := AfterStatic(p, req);
    assert StaticVerdict(p.rules, req, p.env) in {Allow, Warn};
    if InterceptFault(p.intercept(req)).Some? {
      InterceptFaulted(p, req, s2.decision, s2.posture);
    } else {
      InterceptValid(p, req, s2.decision, s2.posture);
    }
  }

  lemma AskedExactly(p: Setup, req: Request)
    ensures Asked(p, req) <==> AskedAtStage(p, req)
  {
    StageOneTells(p, req);
    if AskedAtStage(p, req) {
      StageFourVerdict(p, req);
      StagesVerdict(p, req);
    }
    if Asked(p, req) {
      StageFourReached(p, req);
      StageFourVerdict(p, req);
      StagesVerdict(p, req);
    }
  }

  predicate AskedAt(p: Setup, req: Request, d: Decision, posture: TrustState) {
    var c := p.evaluate(req, d.trustScore, posture);
    && EvalFault(c).None? && Awaits(p, d.ruling, c.value.value)
    && (c.value.value.errors == [] || !Enforces(p, req))
  }

  lemma TakeAlike(q: Setup, r: Setup, req: Request, v: Ruling, ev: EvalDecision)
    requires r == q.(dryRun := r.dryRun) && !Awaits(q, v, ev)
    ensures TakeVerdict(q, req, v, ev) == TakeVerdict(r, req, v, ev)
    ensures !TakeVerdict(q, req, v, ev).crashed
  {
  }

  lemma AdoptAlike(q: Setup, r: Setup, req: Request, d: Decision, ev: EvalDecision, denied: bool)
    requires r == q.(dryRun := r.dryRun) && !Awaits(q, d.ruling, ev)
    ensures Adopt(q, req, d, ev, denied) == Adopt(r, req, d, ev, denied)
    ensures Adopt(q, req, d, ev, denied).Concluded?
  {
    TakeAlike(q, r, req, d.ruling, ev);
    assert TakeAction(q, req, d, ev) == TakeAction(r, req, d, ev);
  }

  lemma EvalAlike(q: Setup, r: Setup, req: Request, d: Decision, posture: TrustState)
    requires r == q.(dryRun := r.dryRun) && !AskedAt(q, req, d, posture)
    ensures EvalStage(q, req, d, posture) == EvalStage(r, req, d, posture)
    ensures EvalStage(q, req, d, posture).Concluded?
  {
    var c := q.evaluate(req, d.trustScore, posture);
    if EvalFault(c).None? {
      var ev := c.value.value;
      var marked := Mark(q, req, d, PolicyEvalStage, SkipCategory(ev), RuleSkipped);
      MarkFacts(d, CheckFailure(PolicyEvalStage, SkipCategory(ev), RuleSkipped), Enforces(q, req));
      if ev.errors != [] && ev.action != EvalDeny {
        if Allowed(marked) {
          AdoptAlike(q, r, req, marked, ev, false);
        }
      } else {
        AdoptAlike(q, r, req, d, ev, ev.errors != []);
      }
    }
  }

  lemma DeliberatesAlike(q: Setup, r: Setup, req: Request)
    requires r == q.(dryRun := r.dryRun) && !AskedAtStage(q, req)
    ensures Deliberate(q, req) == Deliberate(r, req)
    ensures Deliberate(q, req).Concluded?
  {
    assert AfterTrust(q, req) == AfterTrust(r, req);
    assert AfterStatic(q, req) == AfterStatic(r, req);
    assert AfterIntercept(q, req) == AfterIntercept(r, req);
    var s := AfterIntercept(q, req);
    if q.configErr.None? && s.Go? {
      EvalAlike(q, r, req, s.decision, s.posture);
    }
  }

  lemma AskedAlike(q: Setup, r: Setup, req: Request)
    requires r == q.(dryRun := r.dryRun)
    ensures AskedAtStage(q, req) == AskedAtStage(r, req) && AfterIntercept(q, req) == AfterIntercept(r, req)
  {
    assert AfterTrust(q, req) == AfterTrust(r, req);
    assert AfterStatic(q, req) == AfterStatic(r, req);
    assert AfterIntercept(q, req) == AfterIntercept(r, req);
  }

  /** Two runs over the same collaborators in which no handler is asked: the
      dry-run pipeline audits exactly the action, reason, mode and attribution the
      enforcing pipeline returns; its event is flagged iff its answer is; the
      answers differ only where dry-run lets a block through; and a verdict already
      converting when trust is updated never reaches the backend. */
  lemma {:induction false} DryRunFaithful(p: Setup, req: Request)
    requires !Asked(p, req)
    ensures var dry, live := p.(dryRun := true), p.(dryRun := false);
            var d := Deliberate(dry, req).decision;
            var e := Events(dry, req, d);
            && Answer(dry, req).Some? && Answer(live, req).Some?
            && e[0].ruling == Answer(live, req).value.ruling
            && e[0].dryRun == Answer(dry, req).value.dryRun
            && (Converts(dry, d) ==> !Submits(dry, req, d) && |e| == 1 && Answer(dry, req).value.ruling.action == Allow)
            && (e[0].dryRun ==> Allowed(Answer(dry, req).value) && !Allowed(Answer(live, req).value))
            && (!e[0].dryRun ==> Answer(dry, req) == Answer(live, req))
  {
    var dry, live := p.(dryRun := true), p.(dryRun := false);
    AskedExactly(p, req);
    AskedAlike(p, dry, req);
    DeliberatesAlike(dry, live, req);
    var d := Deliberate(dry, req).decision;
    DeliberationSound(dry, req);
    TrustUpdateOnlyRaises(dry, req, d);
    TrustUpdateOnlyRaises(live, req, d);
    if !Converts(dry, d) {
      assert Submits(dry, req, d) == Submits(live, req, d);
      assert Settle(dry, req, d) == Settle(live, req, d);
    }
  }

  /** What the handler says about a call that reaches it. */
  function Reply(p: Setup, req: Request): Call<Option<Resolution>>
    requires Asked(p, req)
  {
    p.escalate.value(req, p.evaluate(req, ToldScore(p, req), ToldPosture(p, req)).value.value.escalationReason)
  }

  function ReplyAtStage(p: Setup, req: Request): Call<Option<Resolution>>
    requires AskedAtStage(p, req)
  {
    var s := AfterIntercept(p, req);
    p.escalate.value(req, p.evaluate(req, s.decision.trustScore, s.posture).value.value.escalationReason)
  }

  lemma ReplyAlike(p: Setup, req: Request)
    requires Asked(p, req)
    ensures AskedAtStage(p, req) && ReplyAtStage(p, req) == Reply(p, req)
  {
    AskedExactly(p, req);
    StageOneTells(p, req);
    StagesVerdict(p, req);
  }

  /** The handler itself resolves to escalate. */
  predicate ResolvesToEscalate(c: Call<Option<Resolution>>) {
    c.Value? && c.value.Some? && c.value.value.action == Escalate
  }

  lemma AskedTakes(p: Setup, req: Request, v: Ruling, ev: EvalDecision)
    requires Awaits(p, v, ev)
    ensures var t, c := TakeVerdict(p, req, v, ev), p.escalate.value(req, ev.escalationReason);
            && (p.dryRun ==> t.ruling.action == Escalate && !t.crashed)
            && (!p.dryRun ==> t.crashed == c.Panic?)
            && (!p.dryRun && !c.Panic? ==> (t.ruling.action == Escalate <==> ResolvesToEscalate(c)))
  {
  }

  lemma AskedDeliberates(p: Setup, req: Request)
    requires AskedAtStage(p, req)
    ensures var d := Deliberate(p, req);
            && (p.dryRun ==> d.decision.ruling.action == Escalate && d.Concluded?)
            && (!p.dryRun ==> d.Crashed? == ReplyAtStage(p, req).Panic?)
            && (!p.dryRun && d.Concluded? ==> (d.decision.ruling.action == Escalate <==> ResolvesToEscalate(ReplyAtStage(p, req))))
  {
    var s := AfterIntercept(p, req);
    var d := s.decision;
    var ev := p.evaluate(req, d.trustScore, s.posture).value.value;
    if ev.errors == [] {
      AskedTakes(p, req, d.ruling, ev);
      AdoptFacts(p, req, d, ev);
    } else {
      AskedIsAllowed(p, req);
      var marked := Mark(p, req, d, PolicyEvalStage, SkipCategory(ev), RuleSkipped);
      MarkFacts(d, CheckFailure(PolicyEvalStage, SkipCategory(ev), RuleSkipped), Enforces(p, req));
      AskedTakes(p, req, marked.ruling, ev);
      AdoptFacts(p, req, marked, ev);
    }
  }

  /** At stage 4 a verdict below escalate permits. */
  lemma AskedIsAllowed(p: Setup, req: Request)
    requires AskedAtStage(p, req)
    ensures Allowed(AfterIntercept(p, req).decision)
  {
    StagesVerdict(p, req);
  }

  /** The two runs when a handler is asked: dry-run audits and answers escalate, and
      the enforcing answer is that same verdict exactly when the handler itself
      resolves to escalate. */
  lemma {:induction false} DryRunWithHandlerExactly(p: Setup, req: Request)
    requires Asked(p, req)
    ensures var dry, live := p.(dryRun := true), p.(dryRun := false);
            var e := Events(dry, req, Deliberate(dry, req).decision);
            && e[0].ruling.action == Escalate && !e[0].dryRun
            && Answer(dry, req).Some? && Answer(dry, req).value.ruling.action == Escalate
            && (Answer(live, req).None? <==> Reply(p, req).Panic?)
            && (Answer(live, req).Some? ==>
                  (Answer(live, req).value.ruling.action == Escalate <==> ResolvesToEscalate(Reply(p, req))))
  {
    var dry, live := p.(dryRun := true), p.(dryRun := false);
    ReplyAlike(p, req);
    AskedAlike(p, dry, req);
    AskedAlike(p, live, req);
    AskedDeliberates(dry, req);
    AskedDeliberates(live, req);
    DeliberationSound(dry, req);
    TrustUpdateOnlyRaises(dry, req, Deliberate(dry, req).decision);
    TrustUpdateOnlyRaises(live, req, Deliberate(live, req).decision);
  }
}
