/** What the order of the static rules can change once the trust update is over,
    over the in-process backend. */
module PipelineOrder {
  import opened Verdicts
  import opened Policy
  import opened Pipeline
  import opened PipelineLaws
  import opened PipelineReasons
  import opened PipelineTrust
  import Trust

  // --- The deferred update over the in-process backend -------------------------------------

  /** A permitting verdict after an update to state s. */
  function Overruled(a: Action, s: TrustState): Action {
    if !Permits(a) then a else if s == Isolated then Deny else if s == Evaluating then RequireApproval else a
  }

  function StateAfter(cfg: Trust.Config, states: Trust.States, agent: string, a: Action): TrustState {
    Trust.UpdateOf(cfg, states, agent, Trust.OutcomeOf(a)).after.state
  }

  lemma SettledAction(p: Setup, cfg: Trust.Config, states: Trust.States, req: Request, d: Decision)
    ensures var q := Over(p, cfg, states);
            Settle(q, req, d).ruling.action
            == (if Submits(q, req, d) then Overruled(d.ruling.action, StateAfter(cfg, states, req.agentId, d.ruling.action))
                else d.ruling.action)
  {
    var q := Over(p, cfg, states);
    if Submits(q, req, d) {
      assert Recorded(q, req, d)
        == Value(PipelineUpdate(Trust.UpdateOf(cfg, states, req.agentId, Trust.OutcomeOf(d.ruling.action))));
    }
  }

  /** A flagged call leaves the store alone, so the update reports the state it was. */
  lemma WarnKeepsState(cfg: Trust.Config, states: Trust.States, agent: string)
    ensures StateAfter(cfg, states, agent, Warn) == Trust.SnapshotOf(states, agent).state
  {
  }

  // --- When rule order matters ---------------------------------------------------------------

  /** The words of the two winning rules disagree on the trust markers. */
  predicate WinnersDisagree(p: Setup, q: Setup, req: Request) {
    var v, w := Winner(p.rules, req, p.env), Winner(q.rules, req, q.env);
    v.Some? && w.Some? && TrustMarked(Render(ReasonOf(ByRule(v.value)))) != TrustMarked(Render(ReasonOf(ByRule(w.value))))
  }

  /** A static rule decides a live agent's call, no failed check keeps it from being
      scored, dry-run does not let it through, and the two orders' winners disagree
      on the trust markers. */
  predicate OrderMatters(p: Setup, q: Setup, cfg: Trust.Config, states: Trust.States, req: Request) {
    var a := Over(p, cfg, states);
    && p.configErr.None? && req.agentId != "" && AfterTrust(a, req).Go?
    && CountableCall(a, req)
    && Decided(a, req).source.ByRule? && !(p.dryRun && Decided(a, req).action == Deny)
    && WinnersDisagree(p, q, req)
  }

  lemma OverReordered(p: Setup, q: Setup, cfg: Trust.Config, states: Trust.States)
    requires Reordered(p, q)
    ensures Reordered(Over(p, cfg, states), Over(q, cfg, states))
  {
  }

  /** Two rulings put the same words on the record, or those of the two winners. */
  ghost predicate SameWords(v: Ruling, w: Ruling, s: Standing, p: Setup, q: Setup, req: Request) {
    && v.action == w.action == s.action
    && if s.source.ByRule?
       then && s.action != Allow && Winner(p.rules, req, p.env).Some? && Winner(q.rules, req, q.env).Some?
            && v.reason == ReasonOf(ByRule(Winner(p.rules, req, p.env).value))
            && w.reason == ReasonOf(ByRule(Winner(q.rules, req, q.env).value))
       else v.reason == w.reason
  }

  lemma WordsOfStandings(v: Ruling, w: Ruling, s: Standing, t: Standing, p: Setup, q: Setup, req: Request)
    requires Stands(v, s) && Stands(w, t) && SameStanding(s, t, p, q, req)
    ensures SameWords(v, w, s, p, q, req)
  {
  }

  lemma WordsUpToTies(p: Setup, q: Setup, req: Request)
    requires Reordered(p, q) && p.configErr.None? && AfterTrust(p, req).Go?
    ensures Countable(Deliberate(p, req).decision) && Countable(Deliberate(q, req).decision) ==>
              SameWords(Deliberate(p, req).decision.ruling, Deliberate(q, req).decision.ruling, Decided(p, req), p, q, req)
  {
    DeciderUpToTies(p, q, req);
    DecisionExact(p, req);
    DecisionExact(q, req);
    if Countable(Deliberate(p, req).decision) && Countable(Deliberate(q, req).decision) {
      WordsOfStandings(Deliberate(p, req).decision.ruling, Deliberate(q, req).decision.ruling, Decided(p, req), Decided(q, req), p, q, req);
    }
  }

  lemma SubmitsByWords(a: Setup, b: Setup, req: Request, d: Decision, e: Decision, s: Standing)
    requires Reordered(a, b) && SameVerdict(d, e) && SameWords(d.ruling, e.ruling, s, a, b, req) && IsVerdict(s.action)
    requires a.configErr.None? && Countable(d)
    ensures Submits(a, req, d) != Submits(b, req, e)
       <==> && req.agentId != "" && a.trust.Some? && a.trust.value.record.Some?
            && s.source.ByRule? && !(a.dryRun && s.action == Deny) && WinnersDisagree(a, b, req)
  {
  }

  lemma EarlyEndsAlike(a: Setup, b: Setup, req: Request)
    requires Reordered(a, b) && (a.configErr.Some? || AfterTrust(a, req).Done?)
    ensures Deliberate(a, req) == Deliberate(b, req)
  {
    assert AfterTrust(a, req) == AfterTrust(b, req);
  }

  lemma SubmitsAlikeEarly(a: Setup, b: Setup, req: Request)
    requires Reordered(a, b) && (a.configErr.Some? || AfterTrust(a, req).Done? || !Countable(Deliberate(a, req).decision))
    ensures Submits(a, req, Deliberate(a, req).decision) == Submits(b, req, Deliberate(b, req).decision)
  {
    RuleOrderIrrelevant(a, b, req);
    if a.configErr.Some? || AfterTrust(a, req).Done? {
      EarlyEndsAlike(a, b, req);
    }
  }

  /** Whether a pipeline submits depends on rule order only through the words of
      two winners, and exactly when those disagree and decide. */
  lemma SubmissionExactly(a: Setup, b: Setup, req: Request)
    requires Reordered(a, b)
    ensures Submits(a, req, Deliberate(a, req).decision) != Submits(b, req, Deliberate(b, req).decision)
       <==> && a.configErr.None? && AfterTrust(a, req).Go? && CountableCall(a, req)
            && req.agentId != "" && a.trust.Some? && a.trust.value.record.Some?
            && Decided(a, req).source.ByRule? && !(a.dryRun && Decided(a, req).action == Deny) && WinnersDisagree(a, b, req)
  {
    if a.configErr.None? && AfterTrust(a, req).Go? {
      CountableExactly(a, req);
    }
    if a.configErr.Some? || AfterTrust(a, req).Done? || !Countable(Deliberate(a, req).decision) {
      SubmitsAlikeEarly(a, b, req);
    } else {
      RuleOrderIrrelevant(a, b, req);
      WordsUpToTies(a, b, req);
      DecidedIsVerdict(a, req);
      SubmitsByWords(a, b, req, Deliberate(a, req).decision, Deliberate(b, req).decision, Decided(a, req));
    }
  }

  /** Whether a call is scored depends on the order of the rules exactly when
      OrderMatters. */
  lemma {:induction false} OrderChangesScoringExactly(p: Setup, q: Setup, cfg: Trust.Config, states: Trust.States, req: Request)
    requires Reordered(p, q)
    ensures Submitted(cfg, states, p, req) != Submitted(cfg, states, q, req) <==> OrderMatters(p, q, cfg, states, req)
  {
    var a, b := Over(p, cfg, states), Over(q, cfg, states);
    OverReordered(p, q, cfg, states);
    RuleOrderIrrelevant(a, b, req);
    SubmissionExactly(a, b, req);
  }

  /** The answer's verdict depends on the order of the rules exactly when, besides,
      the call is merely flagged and the agent is degraded: one order then permits
      it and the other holds it for approval. */
  lemma {:induction false} OrderChangesAnswerExactly(p: Setup, q: Setup, cfg: Trust.Config, states: Trust.States, req: Request)
    requires Reordered(p, q)
    ensures var x, y := Answer(Over(p, cfg, states), req), Answer(Over(q, cfg, states), req);
            && x.Some? == y.Some?
            && (x.Some? ==>
                  (x.value.ruling.action != y.value.ruling.action
                   <==> && OrderMatters(p, q, cfg, states, req)
                        && Decided(Over(p, cfg, states), req).action == Warn
                        && Trust.SnapshotOf(states, req.agentId).state == Evaluating))
  {
    var a, b := Over(p, cfg, states), Over(q, cfg, states);
    OverReordered(p, q, cfg, states);
    RuleOrderIrrelevant(a, b, req);
    SubmissionExactly(a, b, req);
    var d, e := Deliberate(a, req).decision, Deliberate(b, req).decision;
    SettledAction(p, cfg, states, req, d);
    SettledAction(q, cfg, states, req, e);
    ConvertsAlike(a, b, Settle(a, req, d), Settle(b, req, e));
    if Submits(a, req, d) != Submits(b, req, e) {
      CountableExactly(a, req);
      DecisionExact(a, req);
      DeciderUpToTies(a, b, req);
      WarnKeepsState(cfg, states, req.agentId);
      LiveState(p, cfg, states, req);
    }
  }

  lemma ConvertsAlike(a: Setup, b: Setup, d: Decision, e: Decision)
    requires Reordered(a, b)
    ensures d.ruling.action == e.ruling.action ==> ConvertDryRun(a, d).ruling.action == ConvertDryRun(b, e).ruling.action
    ensures Permits(d.ruling.action) || d.ruling.action == RequireApproval ==> ConvertDryRun(a, d) == d
    ensures Permits(e.ruling.action) || e.ruling.action == RequireApproval ==> ConvertDryRun(b, e) == e
  {
  }

  lemma LiveState(p: Setup, cfg: Trust.Config, states: Trust.States, req: Request)
    requires req.agentId != "" && AfterTrust(Over(p, cfg, states), req).Go?
    ensures !Blocked(Trust.SnapshotOf(states, req.agentId).state)
  {
    var q := Over(p, cfg, states);
    assert IdentityCheck(q, req) == Go(Initial, Trusted);
    assert q.trust.value.check(req.agentId) == Value(Trust.SnapshotOf(states, req.agentId).state);
  }

  /** If no rule's text carries a trust marker, rule order changes neither what is
      scored nor the answer. */
  lemma {:induction false} UnmarkedRulesCommute(p: Setup, q: Setup, cfg: Trust.Config, states: Trust.States, req: Request)
    requires Reordered(p, q)
    requires forall r :: r in p.rules ==> !TrustMarked(Render(ReasonOf(ByRule(r))))
    ensures Next(cfg, states, Evaluation(p, req)) == Next(cfg, states, Evaluation(q, req))
    ensures var x, y := Answer(Over(p, cfg, states), req), Answer(Over(q, cfg, states), req);
            x.Some? == y.Some? && (x.Some? ==> x.value.ruling.action == y.value.ruling.action)
  {
    WinnerIsStrictest(p.rules, req, p.env);
    WinnerIsStrictest(q.rules, req, q.env);
    assert forall r :: r in q.rules ==> r in multiset(q.rules);
    assert forall r :: r in p.rules <==> r in multiset(p.rules);
    OrderChangesScoringExactly(p, q, cfg, states, req);
    OrderChangesAnswerExactly(p, q, cfg, states, req);
  }
}
