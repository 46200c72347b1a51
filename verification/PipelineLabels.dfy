/** The rest of a decision, read off the rules and the collaborators' own results:
    its mode, the rule and policy it names, and the failed check it records. */
module PipelineLabels {
  import opened Verdicts
  import opened Policy
  import opened Pipeline
  import opened PipelineLaws
  import opened PipelineReasons

  // --- Mode, rule and policy -----------------------------------------------------------------

  datatype Label = Label(mode: DecisionMode, rule: string, policy: string)

  const NoLabel := Label(Deterministic, "", "")

  /** A mode the pipeline may take over, or what it had. */
  function Adopted(m: DecisionMode, otherwise: DecisionMode): DecisionMode {
    match m
    case Deterministic => Deterministic
    case Classified => Classified
    case HumanApproved => HumanApproved
    case _ => otherwise
  }

  function StaticLabel(p: Setup, req: Request): Label {
    var w := Winner(p.rules, req, p.env);
    if w.None? then NoLabel
    else Label(if w.value.action == Escalate then Classified else Adopted(w.value.mode, Deterministic), w.value.name, w.value.name)
  }

  /** A verdict that replaces a named rule's is nobody's until someone names it. */
  function Relabelled(l: Label): Label {
    if l.rule == "" then l else NoLabel
  }

  function Outranks(a: Action, s: Standing): bool {
    VerdictRank(a) > VerdictRank(s.action)
  }

  function InterceptLabel(p: Setup, req: Request): Label {
    if Outranks(InterceptVerdict(p, req), StaticStanding(p, req)) then Relabelled(StaticLabel(p, req)) else StaticLabel(p, req)
  }

  /** The evaluator's policy names what no static rule is credited with. */
  function Named(l: Label, ev: EvalDecision): Label {
    if ev.matchedPolicy.Some? && l.rule == "" then l.(policy := ev.matchedPolicy.value) else l
  }

  function HandlerLabel(s: Standing, l: Label, c: Call<Option<Resolution>>, ev: EvalDecision): Label {
    var asked := Relabelled(l).(mode := Classified);
    match c
    case Panic => asked
    case Value(Some(r)) =>
      if r.action !in {Allow, Warn, Escalate, RequireApproval, Deny} then Named(asked.(mode := Deterministic), ev)
      else if VerdictRank(r.action) < VerdictRank(s.action) then Named(l, ev)
      else Named(asked.(mode := Adopted(r.mode, Classified)), ev)
    case _ => Named(asked.(mode := Deterministic), ev)
  }

  function EvalLabel(p: Setup, req: Request, s: Standing, l: Label, ev: EvalDecision): Label {
    if ev.action != EvalEscalate then Named(if Outranks(VerdictOf(ev.action), s) then Relabelled(l) else l, ev)
    else if !Outranks(Escalate, s) then Named(l, ev)
    else if p.escalate.None? || p.dryRun then Named(Relabelled(l).(mode := Classified), ev)
    else HandlerLabel(s, l, p.escalate.value(req, ev.escalationReason), ev)
  }

  function DecidedLabel(p: Setup, req: Request): Label {
    match p.evaluate(req, ToldScore(p, req), ToldPosture(p, req))
    case Value(Some(ev)) =>
      if InterceptStanding(p, req).action == Deny then InterceptLabel(p, req)
      else EvalLabel(p, req, InterceptStanding(p, req), InterceptLabel(p, req), ev)
    case _ => InterceptLabel(p, req)
  }

  ghost predicate Bears(v: Ruling, l: Label) {
    v.mode == l.mode && v.credit.matchedRule == l.rule && v.credit.policyId == l.policy
  }

  lemma StaticStageBears(p: Setup, req: Request, d: Decision, posture: TrustState)
    requires Bears(d.ruling, NoLabel)
    ensures Bears(StaticStage(p, req, d, posture).decision.ruling, StaticLabel(p, req))
  {
  }

  lemma AdoptStricterBears(v: Ruling, a: Action, text: string, s: Standing, l: Label)
    requires Stands(v, s) && Bears(v, l)
    ensures Bears(AdoptStricter(v, a, text), if Outranks(a, s) then Relabelled(l) else l)
  {
  }

  lemma InterceptStageBears(p: Setup, req: Request, d: Decision, posture: TrustState)
    requires Stands(d.ruling, StaticStanding(p, req)) && Bears(d.ruling, StaticLabel(p, req))
    ensures var s := InterceptStage(p, req, d, posture);
            s.Go? || s.decision.check.None? ==> Bears(s.decision.ruling, InterceptLabel(p, req))
  {
    var c := p.intercept(req);
    if InterceptFault(c).Some? {
      FaultKeepsStanding(p, req);
      MarkFacts(d, InterceptFault(c).value, Enforces(p, req));
    } else {
      BlockingIsVerdict(p, req);
      if c.value.Some? && !c.value.value.allowed {
        AdoptStricterBears(d.ruling, BlockingAction(c.value.value), c.value.value.reason, StaticStanding(p, req), StaticLabel(p, req));
      }
    }
  }

  /** A ruling with the evaluator's policy named, as stage 4 names it. */
  function NamedRuling(t: Taken, ev: EvalDecision): Ruling {
    if t.crashed then t.ruling else NamePolicy(t.ruling, t.adopted, ev.matchedPolicy)
  }

  lemma ResolveBears(v: Ruling, c: Call<Option<Resolution>>, s: Standing, l: Label, ev: EvalDecision)
    requires !c.Panic? && Bears(v, Relabelled(l).(mode := Classified)) && Relabelled(l).rule == ""
    requires VerdictRank(Resolve(v, c).action) >= VerdictRank(s.action)
    ensures Bears(NamePolicy(Resolve(v, c), true, ev.matchedPolicy), HandlerLabel(s, l, c, ev))
  {
  }

  lemma EscalationBears(p: Setup, req: Request, v: Ruling, ev: EvalDecision, s: Standing, l: Label)
    requires Stands(v, s) && Bears(v, l) && ev.action == EvalEscalate
    ensures Bears(NamedRuling(TakeEscalation(p, req, v, ev), ev), EvalLabel(p, req, s, l, ev))
  {
    AdoptStricterBears(v, Escalate, ev.escalationReason, s, l);
    if IsStricter(v, Escalate) && p.escalate.Some? && !p.dryRun {
      var c := p.escalate.value(req, ev.escalationReason);
      var esc := AdoptStricter(v, Escalate, ev.escalationReason).(mode := Classified);
      if !c.Panic? && VerdictRank(Resolve(esc, c).action) >= VerdictRank(v.action) {
        ResolveBears(esc, c, s, l, ev);
      }
    }
  }

  lemma TakeVerdictBears(p: Setup, req: Request, v: Ruling, ev: EvalDecision, s: Standing, l: Label)
    requires Stands(v, s) && Bears(v, l)
    ensures Bears(NamedRuling(TakeVerdict(p, req, v, ev), ev), EvalLabel(p, req, s, l, ev))
  {
    if ev.action == EvalEscalate {
      EscalationBears(p, req, v, ev, s, l);
    } else {
      AdoptStricterBears(v, EvalActionVerdict(ev.action), ev.reason, s, l);
      assert EvalActionVerdict(ev.action) == VerdictOf(ev.action);
    }
  }

  lemma AdoptBears(p: Setup, req: Request, d: Decision, ev: EvalDecision, denied: bool, s: Standing, l: Label)
    requires Stands(d.ruling, s) && Bears(d.ruling, l)
    requires denied ==> ev.action == EvalDeny
    ensures var e := Adopt(p, req, d, ev, denied).decision;
            Countable(e) ==> Bears(e.ruling, EvalLabel(p, req, s, l, ev))
  {
    TakeVerdictBears(p, req, d.ruling, ev, s, l);
    var t := TakeVerdict(p, req, d.ruling, ev);
    if ev.action == EvalUnknown {
      AdoptFacts(p, req, d, ev);
    } else if !t.crashed {
      var named := d.(ruling := NamedRuling(t, ev));
      SkipFacts(p, req, named, ev, denied);
      if denied {
        TakeVerdictNotBelow(p, req, d.ruling, ev);
      }
    }
  }

  lemma EvalStageBears(p: Setup, req: Request, d: Decision, posture: TrustState, s: Standing, l: Label)
    requires Stands(d.ruling, s) && Bears(d.ruling, l) && !d.trustCountable
    ensures var e := EvalStage(p, req, d, posture).decision;
            var c := p.evaluate(req, d.trustScore, posture);
            Countable(e) ==> c.Value? && c.value.Some? && Bears(e.ruling, EvalLabel(p, req, s, l, c.value.value))
  {
    var c := p.evaluate(req, d.trustScore, posture);
    if EvalFault(c).None? {
      var ev := c.value.value;
      if ev.errors != [] && ev.action != EvalDeny {
        MarkFacts(d, CheckFailure(PolicyEvalStage, SkipCategory(ev), RuleSkipped), Enforces(p, req));
        SkippedNeverCounts(p, req, Mark(p, req, d, PolicyEvalStage, SkipCategory(ev), RuleSkipped), ev);
      } else {
        AdoptBears(p, req, d, ev, ev.errors != [], s, l);
      }
    }
  }

  lemma TrustStageBears(p: Setup, req: Request)
    ensures AfterTrust(p, req).Go? ==> Bears(AfterTrust(p, req).decision.ruling, NoLabel)
  {
  }

  /** The exact label, with any handler and no failed check: which mode the decision
      carries, which static rule it credits, and which policy it names. */
  lemma {:induction false} LabelExact(p: Setup, req: Request)
    requires p.configErr.None? && PassesTrust(p, req)
    ensures Countable(Deliberate(p, req).decision) ==> Bears(Deliberate(p, req).decision.ruling, DecidedLabel(p, req))
  {
    StageOneTells(p, req);
    TrustStageStands(p, req);
    TrustStageBears(p, req);
    StagesVerdict(p, req);
    var s1 := AfterTrust(p, req);
    StaticStageFacts(p, req, s1.decision, s1.posture);
    StaticStageStands(p, req, s1.decision, s1.posture);
    StaticStageBears(p, req, s1.decision, s1.posture);
    var s2 := AfterStatic(p, req);
    if s2.Go? {
      InterceptStageStands(p, req, s2.decision, s2.posture);
      InterceptStageBears(p, req, s2.decision, s2.posture);
      var s3 := AfterIntercept(p, req);
      if s3.Go? {
        EvalStageBears(p, req, s3.decision, s3.posture, InterceptStanding(p, req), InterceptLabel(p, req));
        InterceptGoNotDenied(p, req);
      }
    } else {
      DenyIsFinal(p, req);
    }
  }

  lemma InterceptGoNotDenied(p: Setup, req: Request)
    requires AfterIntercept(p, req).Go?
    ensures InterceptStanding(p, req).action != Deny
  {
    TrustStageStands(p, req);
    var s1 := AfterTrust(p, req);
    StaticStageFacts(p, req, s1.decision, s1.posture);
    StaticStageStands(p, req, s1.decision, s1.posture);
    InterceptStageStands(p, req, AfterStatic(p, req).decision, s1.posture);
    InterceptDenyEnds(p, req, AfterStatic(p, req).decision, s1.posture);
  }

  lemma InterceptDenyEnds(p: Setup, req: Request, d: Decision, posture: TrustState)
    requires d.ruling.action != Deny && InterceptStage(p, req, d, posture).Go?
    ensures InterceptStage(p, req, d, posture).decision.ruling.action != Deny
  {
  }

  // --- The failed check ---------------------------------------------------------------------

  function TrustFailure(p: Setup, req: Request): Option<CheckFailure> {
    if p.requireAgentId && req.agentId == "" then Some(CheckFailure(IdentityStage, MissingIdentity, IdentityRequired))
    else if !LooksUp(p, req) then None
    else
      match p.trust.value.check(req.agentId)
      case Value(_) => None
      case Error(category, _) => Some(CheckFailure(TrustStage, category, TrustCheckFailed))
      case Panic => Some(CheckFailure(TrustStage, PanicRecovered, TrustCheckFailed))
  }

  /** A blocking result must carry an action of the blocking vocabulary, or none. */
  function InterceptFailure(p: Setup, req: Request): Option<CheckFailure> {
    match p.intercept(req)
    case Error(category, _) => Some(CheckFailure(InterceptorStage, category, InterceptorError))
    case Panic => Some(CheckFailure(InterceptorStage, PanicRecovered, InterceptorError))
    case Value(r) =>
      if r.None? || r.value.allowed || r.value.action in {Other(""), Deny, RequireApproval, Escalate, Warn} then None
      else Some(CheckFailure(InterceptorStage, InvalidResult, InterceptorInvalid))
  }

  function EvaluatorFailure(p: Setup, req: Request): Option<CheckFailure> {
    match p.evaluate(req, ToldScore(p, req), ToldPosture(p, req))
    case Error(category, _) => Some(CheckFailure(PolicyEvalStage, category, EvaluationFailed))
    case Panic => Some(CheckFailure(PolicyEvalStage, PanicRecovered, EvaluationFailed))
    case Value(None) => Some(CheckFailure(PolicyEvalStage, InvalidResult, EvaluationEmpty))
    case Value(Some(ev)) =>
      if ev.strictFailed then Some(CheckFailure(PolicyEvalStage, MissingConfig, StrictValidationFailed))
      else if ev.errors != [] then
        Some(CheckFailure(PolicyEvalStage, if ev.timedOut then TimedOut else InvalidResult, RuleSkipped))
      else if ev.action == EvalUnknown then Some(CheckFailure(PolicyEvalStage, InvalidResult, EvaluationUnknownAction))
      else None
  }

  /** The first required check that fails, in the order the call gets to them. */
  function FirstFailure(p: Setup, req: Request): Option<CheckFailure> {
    if p.configErr.Some? then Some(CheckFailure(ConfigStage, MissingConfig, ConfigInvalid(p.configErr.value)))
    else if TrustFailure(p, req).Some? then TrustFailure(p, req)
    else if !PassesTrust(p, req) || StaticVerdict(p.rules, req, p.env) == Deny then None
    else if InterceptFailure(p, req).Some? then InterceptFailure(p, req)
    else if InterceptVerdict(p, req) == Deny then None
    else EvaluatorFailure(p, req)
  }

  function OrElse(a: Option<CheckFailure>, b: Option<CheckFailure>): Option<CheckFailure> {
    if a.Some? then a else b
  }

  lemma MarkKeepsFirst(d: Decision, cf: CheckFailure, enforcing: bool)
    ensures MarkEnforced(d, cf, enforcing).check == OrElse(d.check, Some(cf))
  {
  }

  lemma TrustStageFailure(p: Setup, req: Request)
    ensures AfterTrust(p, req).decision.check == TrustFailure(p, req)
  {
  }

  lemma InterceptStageFailure(p: Setup, req: Request, d: Decision, posture: TrustState)
    ensures InterceptStage(p, req, d, posture).decision.check == OrElse(d.check, InterceptFailure(p, req))
    ensures InterceptFault(p.intercept(req)) == InterceptFailure(p, req)
  {
    var fault := InterceptFault(p.intercept(req));
    if fault.Some? {
      MarkKeepsFirst(d, fault.value, Enforces(p, req));
    }
  }

  lemma AdoptFailure(p: Setup, req: Request, d: Decision, ev: EvalDecision)
    ensures ev.action != EvalUnknown ==> Adopt(p, req, d, ev, false).decision.check == d.check
    ensures ev.action == EvalUnknown ==>
              Adopt(p, req, d, ev, false).decision.check
              == OrElse(d.check, Some(CheckFailure(PolicyEvalStage, InvalidResult, EvaluationUnknownAction)))
    ensures ev.action == EvalDeny ==>
              Adopt(p, req, d, ev, true).decision.check
              == OrElse(d.check, Some(CheckFailure(PolicyEvalStage, SkipCategory(ev), RuleSkipped)))
  {
    MarkKeepsFirst(d, CheckFailure(PolicyEvalStage, InvalidResult, EvaluationUnknownAction), Enforces(p, req));
  }

  lemma EvalStageFailure(p: Setup, req: Request, d: Decision, posture: TrustState)
    requires d.trustScore == ToldScore(p, req) && posture == ToldPosture(p, req)
    ensures EvalStage(p, req, d, posture).decision.check == OrElse(d.check, EvaluatorFailure(p, req))
  {
    var c := p.evaluate(req, d.trustScore, posture);
    if EvalFault(c).Some? {
      MarkKeepsFirst(d, EvalFault(c).value, Enforces(p, req));
    } else {
      var ev := c.value.value;
      var marked := Mark(p, req, d, PolicyEvalStage, SkipCategory(ev), RuleSkipped);
      MarkKeepsFirst(d, CheckFailure(PolicyEvalStage, SkipCategory(ev), RuleSkipped), Enforces(p, req));
      AdoptFailure(p, req, d, ev);
      AdoptFailure(p, req, marked, ev);
    }
  }

  /** The recorded failed check is exactly the first that fails, with its stage, its
      category and its cause; a call that ends before a check never records it. */
  lemma {:induction false} FailureExact(p: Setup, req: Request)
    ensures Deliberate(p, req).decision.check == FirstFailure(p, req)
  {
    if p.configErr.None? {
      StageOneTells(p, req);
      TrustStageFailure(p, req);
      TrustGoAllows(p, req);
      var s1 := AfterTrust(p, req);
      if s1.Go? {
        StaticStageFacts(p, req, s1.decision, s1.posture);
        var s2 := AfterStatic(p, req);
        if s2.Go? {
          StagesVerdict(p, req);
          InterceptStageFailure(p, req, s2.decision, s2.posture);
          if InterceptFailure(p, req).None? {
            InterceptStageCheckPlain(p, req, s2.decision, s2.posture);
          }
          var s3 := AfterIntercept(p, req);
          if s3.Go? {
            EvalStageFailure(p, req, s3.decision, s3.posture);
          }
        }
      }
    }
  }

  /** Without a fault, stage 3 ends the evaluation exactly on a deny. */
  lemma InterceptStageCheckPlain(p: Setup, req: Request, d: Decision, posture: TrustState)
    requires d.ruling.action != Deny && InterceptFault(p.intercept(req)).None?
    ensures InterceptStage(p, req, d, posture).Go? <==> InterceptVerdict(p, req) != Deny
  {
    BlockingIsVerdict(p, req);
  }

  /** The answer records that same check, or else a failed trust update. */
  lemma {:induction false} AnswerFailureExact(p: Setup, req: Request)
    ensures var d := Deliberate(p, req).decision;
            Answer(p, req).Some? ==>
              Answer(p, req).value.check ==
                if FirstFailure(p, req).Some? then FirstFailure(p, req)
                else if Submits(p, req, d) && !Recorded(p, req, d).Value?
                then Some(CheckFailure(TrustUpdateStage, FaultOf(Recorded(p, req, d)), TrustUpdateFailed))
                else None
  {
    FailureExact(p, req);
    SettleFailure(p, req, Deliberate(p, req).decision);
  }

  lemma SettleFailure(p: Setup, req: Request, d: Decision)
    ensures ConvertDryRun(p, Settle(p, req, d)).check ==
              if d.check.Some? || !Submits(p, req, d) || Recorded(p, req, d).Value? then d.check
              else Some(CheckFailure(TrustUpdateStage, FaultOf(Recorded(p, req, d)), TrustUpdateFailed))
  {
  }

  // --- The words on the record ------------------------------------------------------------------------

  /** The names a failed check is reported under. */
  lemma FailureNames()
    ensures StageName(TrustStage) == "trust" && StageName(TrustUpdateStage) == "trust_update" && StageName(InterceptorStage) == "interceptor"
    ensures StageName(PolicyEvalStage) == "policy_eval" && StageName(IdentityStage) == "identity" && StageName(ConfigStage) == "config"
    ensures CategoryName(Unavailable) == "unavailable" && CategoryName(Category.TimedOut) == "timeout" && CategoryName(CanceledCheck) == "canceled"
    ensures CategoryName(PanicRecovered) == "panic" && CategoryName(InvalidResult) == "invalid_result"
    ensures CategoryName(MissingConfig) == "missing_config" && CategoryName(MissingIdentity) == "missing_identity"
    ensures CategoryName(StaleSnapshot) == "stale_snapshot"
  {
  }

  /** What dry-run lets through says so, in the words of the verdict it replaced; no
      reason stays unstated. */
  lemma DryRunSays(p: Setup, d: Decision)
    requires p.dryRun && p.configErr.None? && d.ruling.action in {Deny, CheckIndeterminate}
    ensures ConvertDryRun(p, d).dryRun && ConvertDryRun(p, d).ruling.action == Allow
    ensures Render(ConvertDryRun(p, d).ruling.reason) ==
              (if d.ruling.action == Deny then "DRY-RUN would deny: " else "DRY-RUN would block: ")
              + (if Render(d.ruling.reason) == "" then "(no reason)" else Render(d.ruling.reason))
  {
  }
}
