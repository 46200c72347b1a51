/** The pipeline with the portable evaluator as its policy engine. */
module PipelineEval {
  import opened Verdicts
  import opened Pipeline
  import opened PipelineLaws
  import opened Conditions
  import opened PolicyEval
  import Policy

  /** The evaluation context stage 4 projects from a request and its posture. */
  type Projection = (Policy.Request, real, TrustState) -> Context

  /** p with an evaluator holding ps. */
  function With(p: Setup, ps: seq<PolicyEval.Policy>, strictErr: Option<string>, project: Projection, st: Settings, stop: bool): Setup {
    p.(evaluate := (req: Policy.Request, score: real, posture: TrustState) =>
      Value(Some(Decide(ps, strictErr, project(req, score, posture), st, stop))))
  }

  /** The context a call of this pipeline is evaluated in. */
  function ContextOf(p: Setup, project: Projection, req: Policy.Request): Context
  {
    project(req, ToldScore(p, req), ToldPosture(p, req))
  }

  lemma PermittedDecision(p: Setup, ps: seq<PolicyEval.Policy>, strictErr: Option<string>, project: Projection, st: Settings, stop: bool,
                          req: Policy.Request)
    requires !p.dryRun && req.transport !in p.nonEnforcing
    requires var setup := With(p, ps, strictErr, project, st, stop);
             Answer(setup, req).Some? && Allowed(Answer(setup, req).value)
    ensures var setup := With(p, ps, strictErr, project, st, stop);
            var d := Decide(ps, strictErr, ContextOf(setup, project, req), st, stop);
            && d.errors == [] && d.action != EvalDeny
            && (d.action == EvalAllow || d.action == EvalWarn || HandlerApproved(setup, req, d))
  {
    var setup := With(p, ps, strictErr, project, st, stop);
    FailClosed(setup, req);
    var ctx := ContextOf(setup, project, req);
    assert setup.evaluate(req, ToldScore(setup, req), ToldPosture(setup, req)) == Value(Some(Decide(ps, strictErr, ctx, st, stop)));
  }

  lemma CleanDecision(ps: seq<PolicyEval.Policy>, strictErr: Option<string>, ctx: Context, st: Settings, stop: bool, q: PolicyEval.Policy)
    requires Decide(ps, strictErr, ctx, st, stop).errors == [] && Decide(ps, strictErr, ctx, st, stop).action != EvalDeny
    ensures strictErr.None?
    ensures q in ps && Applies(q, ctx) ==>
              && NoneSkipped(q.policyId, q.rules, ctx, st)
              && var a, d := EvaluatePolicy(q, ctx, st).action, Decide(ps, strictErr, ctx, st, stop).action;
                 a != EvalDeny && (a == EvalAllow || a == EvalWarn || !(d == EvalAllow || d == EvalWarn))
  {
    if q in ps && Applies(q, ctx) {
      CleanVerdictSkipsNothing(ps, ctx, st, stop, q);
      ScanVerdictKnown(q.policyId, q.rules, ctx, st);
    }
  }

  /** Fail closed down to the single rule: on an enforcing transport with dry-run
      off, a permitted call means no strict-validation error stood, no applicable
      policy skipped a rule or denied, and each permitted the call by itself or
      the evaluator escalated to a handler that approved. */
  lemma {:induction false} PermittedMeansNothingSkipped(p: Setup, ps: seq<PolicyEval.Policy>, strictErr: Option<string>, project: Projection,
                                     st: Settings, stop: bool, req: Policy.Request, q: PolicyEval.Policy)
    requires !p.dryRun && req.transport !in p.nonEnforcing
    ensures var setup := With(p, ps, strictErr, project, st, stop);
            Answer(setup, req).Some? && Allowed(Answer(setup, req).value) ==>
              && strictErr.None?
              && var ctx := ContextOf(setup, project, req);
                 q in ps && Applies(q, ctx) ==>
                   && NoneSkipped(q.policyId, q.rules, ctx, st)
                   && var a := EvaluatePolicy(q, ctx, st).action;
                      && a != EvalDeny
                      && (a == EvalAllow || a == EvalWarn || HandlerApproved(setup, req, Decide(ps, strictErr, ctx, st, stop)))
  {
    var setup := With(p, ps, strictErr, project, st, stop);
    if Answer(setup, req).None? || !Allowed(Answer(setup, req).value) {
      return;
    }
    PermittedDecision(p, ps, strictErr, project, st, stop, req);
    CleanDecision(ps, strictErr, ContextOf(setup, project, req), st, stop, q);
  }

  /** The verdict stage 4 takes from the evaluator is the same for every order of
      the policies and either stopOnDeny setting. */
  lemma EvaluatorVerdictStable(p: Setup, ps: seq<PolicyEval.Policy>, qs: seq<PolicyEval.Policy>, project: Projection, st: Settings,
                               stop: bool, stop': bool, req: Policy.Request, score: real, posture: TrustState)
    requires multiset(ps) == multiset(qs)
    ensures EvalVerdict(With(p, ps, None, project, st, stop), req, score, posture)
         == EvalVerdict(With(p, qs, None, project, st, stop'), req, score, posture)
  {
    OrderAndStopIrrelevant(ps, qs, project(req, score, posture), st, stop, stop');
  }
}
