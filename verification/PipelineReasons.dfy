/** Who decided: the verdict and the reason text of a decision, read off the
    rules and the collaborators' own results by comparing ranks. */
module PipelineReasons {
  import opened Verdicts
  import opened Policy
  import opened Pipeline
  import opened PipelineLaws

  /** Whose words a decision carries. */
  datatype Source =
    | Nobody
    | ByRule(rule: Rule)
    | ByInterceptor(text: string)
    | ByEvaluator(text: string)
    | ByEscalation(text: string)
    | BySkippedAwait(text: string)
    | ByReviewer(text: string)
    | ByHandlerFault(text: string)

  function ReasonOf(s: Source): Reason {
    match s
    case Nobody => Plain("")
    case ByRule(w) => if w.action == Deny && w.reason == "" then DeniedByPolicy(w.name) else Plain(w.reason)
    case ByInterceptor(text) => Plain(text)
    case ByEvaluator(text) => Plain(text)
    case ByEscalation(text) => Plain(text)
    case BySkippedAwait(text) => AwaitSkipped(text)
    case ByReviewer(text) => Plain(text)
    case ByHandlerFault(text) => EscalationFault(text)
  }

  /** A verdict and who reached it. */
  datatype Standing = Standing(action: Action, source: Source)

  /** A verdict takes over only if it is strictly stricter. */
  function Raise(s: Standing, a: Action, source: Source): Standing {
    if VerdictRank(a) > VerdictRank(s.action) then Standing(a, source) else s
  }

  function StaticStanding(p: Setup, req: Request): Standing {
    var w := Winner(p.rules, req, p.env);
    if w.None? then Standing(Allow, Nobody) else Raise(Standing(Allow, Nobody), RuleVerdict(w.value.action), ByRule(w.value))
  }

  function InterceptText(p: Setup, req: Request): string {
    var c := p.intercept(req);
    if c.Value? && c.value.Some? then c.value.value.reason else ""
  }

  function InterceptStanding(p: Setup, req: Request): Standing {
    Raise(StaticStanding(p, req), InterceptVerdict(p, req), ByInterceptor(InterceptText(p, req)))
  }

  /** What a handler that was asked makes of the escalation. */
  function HandlerStanding(s: Standing, c: Call<Option<Resolution>>, asked: string): Standing {
    match c
    case Panic => Standing(Escalate, ByEscalation(asked))
    case Error(_, text) => Standing(Deny, ByHandlerFault(text))
    case Value(r) =>
      if r.None? then Standing(Deny, ByHandlerFault("handler returned no decision"))
      else if r.value.action !in {Allow, Warn, Escalate, RequireApproval, Deny} then Standing(Deny, ByHandlerFault("handler returned invalid action"))
      else if VerdictRank(r.value.action) < VerdictRank(s.action) then s
      else Standing(r.value.action, ByReviewer(r.value.reason))
  }

  function EscalationStanding(p: Setup, req: Request, s: Standing, ev: EvalDecision): Standing {
    if VerdictRank(s.action) >= VerdictRank(Escalate) then s
    else if p.escalate.None? then Standing(Escalate, ByEscalation(ev.escalationReason))
    else if p.dryRun then Standing(Escalate, BySkippedAwait(ev.escalationReason))
    else HandlerStanding(s, p.escalate.value(req, ev.escalationReason), ev.escalationReason)
  }

  function EvalStanding(p: Setup, req: Request, s: Standing, ev: EvalDecision): Standing {
    if ev.action == EvalEscalate then EscalationStanding(p, req, s, ev)
    else Raise(s, VerdictOf(ev.action), ByEvaluator(ev.reason))
  }

  /** The verdict of a call past the trust check, and who reached it. */
  function Decided(p: Setup, req: Request): Standing {
    var s := InterceptStanding(p, req);
    var c := p.evaluate(req, ToldScore(p, req), ToldPosture(p, req));
    if c.Value? && c.value.Some? then EvalStanding(p, req, s, c.value.value) else s
  }

  ghost predicate Stands(v: Ruling, s: Standing) {
    v.action == s.action && v.reason == ReasonOf(s.source)
  }

  /** No check failed, or the deny stood beside skipped rules. */
  predicate Countable(d: Decision) {
    d.check.None? || d.trustCountable
  }

  lemma TrustStageStands(p: Setup, req: Request)
    ensures var s := AfterTrust(p, req);
            && !s.decision.trustCountable
            && (s.Go? ==> Stands(s.decision.ruling, Standing(Allow, Nobody)))
  {
  }

  lemma StaticStageStands(p: Setup, req: Request, d: Decision, posture: TrustState)
    requires Stands(d.ruling, Standing(Allow, Nobody))
    ensures Stands(StaticStage(p, req, d, posture).decision.ruling, StaticStanding(p, req))
  {
  }

  lemma AdoptStricterStands(v: Ruling, a: Action, text: string, s: Standing, source: Source)
    requires Stands(v, s) && ReasonOf(source) == Plain(text)
    ensures Stands(AdoptStricter(v, a, text), Raise(s, a, source))
  {
  }

  lemma FaultKeepsStanding(p: Setup, req: Request)
    requires InterceptFault(p.intercept(req)).Some?
    ensures InterceptStanding(p, req) == StaticStanding(p, req)
  {
  }

  lemma BlockingIsVerdict(p: Setup, req: Request)
    requires InterceptFault(p.intercept(req)).None?
    ensures var c := p.intercept(req);
            InterceptVerdict(p, req) == if c.value.Some? && !c.value.value.allowed then BlockingAction(c.value.value) else Allow
  {
  }

  lemma InterceptStageStands(p: Setup, req: Request, d: Decision, posture: TrustState)
    requires Stands(d.ruling, StaticStanding(p, req)) && !d.trustCountable
    ensures var s := InterceptStage(p, req, d, posture);
            && !s.decision.trustCountable
            && (s.Go? || s.decision.check.None? ==> Stands(s.decision.ruling, InterceptStanding(p, req)))
  {
    var c := p.intercept(req);
    if InterceptFault(c).Some? {
      FaultKeepsStanding(p, req);
      MarkFacts(d, InterceptFault(c).value, Enforces(p, req));
    } else {
      BlockingIsVerdict(p, req);
      if c.value.Some? && !c.value.value.allowed {
        AdoptStricterStands(d.ruling, BlockingAction(c.value.value), c.value.value.reason, StaticStanding(p, req), ByInterceptor(c.value.value.reason));
      }
    }
  }

  lemma ResolveStands(v: Ruling, c: Call<Option<Resolution>>, s: Standing, asked: string)
    requires !c.Panic? && VerdictRank(s.action) < VerdictRank(Escalate)
    requires VerdictRank(Resolve(v, c).action) >= VerdictRank(s.action)
    ensures Stands(Resolve(v, c), HandlerStanding(s, c, asked))
  {
  }

  lemma EscalationStands(p: Setup, req: Request, v: Ruling, ev: EvalDecision, s: Standing)
    requires Stands(v, s)
    ensures Stands(TakeEscalation(p, req, v, ev).ruling, EscalationStanding(p, req, s, ev))
  {
    AdoptStricterStands(v, Escalate, ev.escalationReason, s, ByEscalation(ev.escalationReason));
    if IsStricter(v, Escalate) && p.escalate.Some? && !p.dryRun {
      var c := p.escalate.value(req, ev.escalationReason);
      if !c.Panic? {
        var esc := AdoptStricter(v, Escalate, ev.escalationReason).(mode := Classified);
        if VerdictRank(Resolve(esc, c).action) >= VerdictRank(v.action) {
          ResolveStands(esc, c, s, ev.escalationReason);
        }
      }
    }
  }

  lemma TakeVerdictStands(p: Setup, req: Request, v: Ruling, ev: EvalDecision, s: Standing)
    requires Stands(v, s)
    ensures Stands(TakeVerdict(p, req, v, ev).ruling, EvalStanding(p, req, s, ev))
  {
    EscalationStands(p, req, v, ev, s);
    AdoptStricterStands(v, EvalActionVerdict(ev.action), ev.reason, s, ByEvaluator(ev.reason));
  }

  lemma AdoptStands(p: Setup, req: Request, d: Decision, ev: EvalDecision, denied: bool, s: Standing)
    requires Stands(d.ruling, s)
    requires denied ==> ev.action == EvalDeny
    ensures var e := Adopt(p, req, d, ev, denied).decision;
            Countable(e) ==> Stands(e.ruling, EvalStanding(p, req, s, ev))
  {
    TakeVerdictStands(p, req, d.ruling, ev, s);
    var t := TakeVerdict(p, req, d.ruling, ev);
    var taken := TakeAction(p, req, d, ev);
    if ev.action == EvalUnknown {
      AdoptFacts(p, req, d, ev);
    } else if !t.crashed {
      var named := taken.(ruling := NamePolicy(taken.ruling, t.adopted, ev.matchedPolicy));
      assert Stands(named.ruling, EvalStanding(p, req, s, ev));
      SkipFacts(p, req, named, ev, denied);
      if denied {
        TakeVerdictNotBelow(p, req, d.ruling, ev);
      }
    }
  }

  lemma EvalStageStands(p: Setup, req: Request, d: Decision, posture: TrustState, s: Standing)
    requires Stands(d.ruling, s) && !d.trustCountable
    ensures var e := EvalStage(p, req, d, posture).decision;
            var c := p.evaluate(req, d.trustScore, posture);
            Countable(e) ==> c.Value? && c.value.Some? && Stands(e.ruling, EvalStanding(p, req, s, c.value.value))
  {
    var c := p.evaluate(req, d.trustScore, posture);
    if EvalFault(c).None? {
      var ev := c.value.value;
      if ev.errors != [] && ev.action != EvalDeny {
        var marked := Mark(p, req, d, PolicyEvalStage, SkipCategory(ev), RuleSkipped);
        MarkFacts(d, CheckFailure(PolicyEvalStage, SkipCategory(ev), RuleSkipped), Enforces(p, req));
        SkippedNeverCounts(p, req, marked, ev);
      } else {
        AdoptStands(p, req, d, ev, ev.errors != [], s);
      }
    }
  }

  lemma SkippedNeverCounts(p: Setup, req: Request, d: Decision, ev: EvalDecision)
    requires d.check.Some? && !d.trustCountable
    ensures !Countable(Adopt(p, req, d, ev, false).decision)
  {
    AdoptFacts(p, req, d, ev);
  }

  /** The exact decision, with any handler: past the trust check, verdict and
      reason are those of the collaborator that decided by rank, unless a check
      failed. */
  lemma {:induction false} DecisionExact(p: Setup, req: Request)
    requires p.configErr.None? && AfterTrust(p, req).Go?
    ensures Countable(Deliberate(p, req).decision) ==> Stands(Deliberate(p, req).decision.ruling, Decided(p, req))
  {
    StageOneTells(p, req);
    TrustStageStands(p, req);
    StagesVerdict(p, req);
    var s1 := AfterTrust(p, req);
    StaticStageFacts(p, req, s1.decision, s1.posture);
    StaticStageStands(p, req, s1.decision, s1.posture);
    var s2 := AfterStatic(p, req);
    if s2.Go? {
      InterceptStageStands(p, req, s2.decision, s2.posture);
      var s3 := AfterIntercept(p, req);
      if s3.Go? {
        EvalStageStands(p, req, s3.decision, s3.posture, InterceptStanding(p, req));
      } else if s3.decision.check.None? {
        DenyIsFinal(p, req);
      }
    } else {
      DenyIsFinal(p, req);
    }
  }

  /** Once the static rules or the interceptor deny, nothing later decides. */
  lemma DenyIsFinal(p: Setup, req: Request)
    ensures StaticStanding(p, req).action == Deny ==> InterceptStanding(p, req) == StaticStanding(p, req)
    ensures InterceptStanding(p, req).action == Deny ==> Decided(p, req) == InterceptStanding(p, req)
  {
  }

  lemma InterceptStandingIsVerdict(p: Setup, req: Request)
    ensures IsVerdict(InterceptStanding(p, req).action)
  {
    assert IsVerdict(StaticStanding(p, req).action);
    assert IsVerdict(InterceptVerdict(p, req));
  }

  lemma EvalStandingIsVerdict(p: Setup, req: Request, s: Standing, ev: EvalDecision)
    requires IsVerdict(s.action)
    ensures IsVerdict(EvalStanding(p, req, s, ev).action)
  {
    if ev.action == EvalEscalate && p.escalate.Some? {
      assert IsVerdict(HandlerStanding(s, p.escalate.value(req, ev.escalationReason), ev.escalationReason).action);
    }
  }

  lemma DecidedIsVerdict(p: Setup, req: Request)
    ensures IsVerdict(Decided(p, req).action)
  {
    InterceptStandingIsVerdict(p, req);
    var c := p.evaluate(req, ToldScore(p, req), ToldPosture(p, req));
    if c.Value? && c.value.Some? {
      EvalStandingIsVerdict(p, req, InterceptStanding(p, req), c.value.value);
    }
  }

  // --- Which calls can count, read off the collaborators ---------------------------------------

  /** Identity and trust check, where required, produced a result. */
  predicate TrustObtained(p: Setup, req: Request) {
    && (p.requireAgentId ==> req.agentId != "")
    && (p.trust.Some? && req.agentId != "" ==> p.trust.value.check(req.agentId).Value?)
  }

  predicate EvaluatorClean(c: Call<Option<EvalDecision>>) {
    EvalFault(c).None? && c.value.value.errors == [] && c.value.value.action != EvalUnknown
  }

  predicate DeniesBesideSkips(c: Call<Option<EvalDecision>>) {
    EvalFault(c).None? && c.value.value.errors != [] && c.value.value.action == EvalDeny
  }

  /** No required check the call gets to fails, or the evaluator denies beside rules
      it skipped: stated on the rules and the collaborators' own results. */
  predicate CountableCall(p: Setup, req: Request) {
    var verdict := StaticVerdict(p.rules, req, p.env);
    var c := p.evaluate(req, ToldScore(p, req), ToldPosture(p, req));
    if verdict == Deny then TrustObtained(p, req)
    else if InterceptFault(p.intercept(req)).Some? then Permits(verdict) && !Enforces(p, req) && DeniesBesideSkips(c)
    else if InterceptVerdict(p, req) == Deny then TrustObtained(p, req)
    else DeniesBesideSkips(c) || (TrustObtained(p, req) && EvaluatorClean(c))
  }

  lemma TrustStageCheck(p: Setup, req: Request)
    ensures AfterTrust(p, req).Go? ==> (AfterTrust(p, req).decision.check.None? <==> TrustObtained(p, req))
  {
  }

  lemma AdoptCountable(p: Setup, req: Request, d: Decision, ev: EvalDecision)
    requires !d.trustCountable
    ensures Countable(Adopt(p, req, d, ev, false).decision) <==> d.check.None? && ev.action != EvalUnknown
  {
    AdoptFacts(p, req, d, ev);
  }

  lemma EvalStageCountable(p: Setup, req: Request, d: Decision, posture: TrustState)
    requires !d.trustCountable
    ensures var c := p.evaluate(req, d.trustScore, posture);
            Countable(EvalStage(p, req, d, posture).decision)
            <==> DeniesBesideSkips(c) || (d.check.None? && EvaluatorClean(c))
  {
    var c := p.evaluate(req, d.trustScore, posture);
    if EvalFault(c).Some? {
      MarkFacts(d, EvalFault(c).value, Enforces(p, req));
    } else {
      var ev := c.value.value;
      if ev.errors == [] {
        AdoptCountable(p, req, d, ev);
      } else if ev.action == EvalDeny {
        DenyDespiteFault(p, req, d, ev);
      } else {
        var marked := Mark(p, req, d, PolicyEvalStage, SkipCategory(ev), RuleSkipped);
        MarkFacts(d, CheckFailure(PolicyEvalStage, SkipCategory(ev), RuleSkipped), Enforces(p, req));
        SkippedNeverCounts(p, req, marked, ev);
      }
    }
  }

  /** How stage 3 leaves the failed check and whether stage 4 is reached. */
  lemma InterceptStageCheck(p: Setup, req: Request, d: Decision, posture: TrustState)
    requires IsVerdict(d.ruling.action) && d.ruling.action != Deny && !d.trustCountable
    ensures var s := InterceptStage(p, req, d, posture);
            && !s.decision.trustCountable
            && (if InterceptFault(p.intercept(req)).Some?
                then s.decision.check.Some? && (s.Go? <==> Permits(d.ruling.action) && !Enforces(p, req))
                else s.decision.check == d.check && (s.Go? <==> InterceptVerdict(p, req) != Deny))
  {
    if InterceptFault(p.intercept(req)).Some? {
      InterceptFaulted(p, req, d, posture);
    } else {
      InterceptValid(p, req, d, posture);
    }
  }

  /** The deliberated decision is countable exactly when the call is. */
  lemma {:induction false} CountableExactly(p: Setup, req: Request)
    requires p.configErr.None? && AfterTrust(p, req).Go?
    ensures Countable(Deliberate(p, req).decision) <==> CountableCall(p, req)
  {
    StageOneTells(p, req);
    TrustStageStands(p, req);
    TrustStageCheck(p, req);
    var s1 := AfterTrust(p, req);
    StaticStageFacts(p, req, s1.decision, s1.posture);
    var s2 := AfterStatic(p, req);
    if s2.Go? {
      InterceptStageCheck(p, req, s2.decision, s2.posture);
      StagesVerdict(p, req);
      var s3 := AfterIntercept(p, req);
      if s3.Go? {
        EvalStageCountable(p, req, s3.decision, s3.posture);
      }
    }
  }

  // --- Rule order and the decider -----------------------------------------------------------

  /** A standing decided by a rule is the winning rule's own, and not an allow. */
  ghost predicate WinnerStanding(s: Standing, p: Setup, req: Request) {
    && s.source.ByRule? && Winner(p.rules, req, p.env) == Some(s.source.rule)
    && s.action == RuleVerdict(s.source.rule.action) != Allow
  }

  /** The same standing, or the verdict of two winners of the same rank. */
  ghost predicate SameStanding(s: Standing, t: Standing, p: Setup, q: Setup, req: Request) {
    && s.action == t.action
    && if s.source.ByRule? then WinnerStanding(s, p, req) && WinnerStanding(t, q, req) else s == t
  }

  lemma RaiseSame(s: Standing, t: Standing, a: Action, source: Source, p: Setup, q: Setup, req: Request)
    requires SameStanding(s, t, p, q, req) && !source.ByRule?
    ensures SameStanding(Raise(s, a, source), Raise(t, a, source), p, q, req)
  {
  }

  lemma ToldAlike(p: Setup, q: Setup, req: Request)
    requires Reordered(p, q)
    ensures ToldScore(p, req) == ToldScore(q, req) && ToldPosture(p, req) == ToldPosture(q, req)
    ensures AfterTrust(q, req) == AfterTrust(p, req)
  {
  }

  lemma InterceptStandingSame(p: Setup, q: Setup, req: Request)
    requires Reordered(p, q)
    ensures SameStanding(InterceptStanding(p, req), InterceptStanding(q, req), p, q, req)
  {
    StaticVerdictPermutes(p.rules, q.rules, req, p.env);
    assert SameStanding(StaticStanding(p, req), StaticStanding(q, req), p, q, req);
    assert InterceptVerdict(p, req) == InterceptVerdict(q, req) && InterceptText(p, req) == InterceptText(q, req);
    RaiseSame(StaticStanding(p, req), StaticStanding(q, req), InterceptVerdict(p, req), ByInterceptor(InterceptText(p, req)), p, q, req);
  }

  lemma EvalStandingSame(p: Setup, q: Setup, req: Request, s: Standing, t: Standing, ev: EvalDecision)
    requires Reordered(p, q) && SameStanding(s, t, p, q, req)
    ensures SameStanding(EvalStanding(p, req, s, ev), EvalStanding(q, req, t, ev), p, q, req)
  {
    RaiseSame(s, t, VerdictOf(ev.action), ByEvaluator(ev.reason), p, q, req);
  }

  /** Reordering the rules changes at most which of two equally strict rules is
      the decider. */
  lemma DeciderUpToTies(p: Setup, q: Setup, req: Request)
    requires Reordered(p, q)
    ensures AfterTrust(q, req) == AfterTrust(p, req)
    ensures SameStanding(Decided(p, req), Decided(q, req), p, q, req)
  {
    ToldAlike(p, q, req);
    InterceptStandingSame(p, q, req);
    var c := p.evaluate(req, ToldScore(p, req), ToldPosture(p, req));
    if c.Value? && c.value.Some? {
      EvalStandingSame(p, q, req, InterceptStanding(p, req), InterceptStanding(q, req), c.value.value);
    }
  }
}
