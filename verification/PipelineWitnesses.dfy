/** Concrete calls on which the deferred trust update breaks laws the deliberation
    keeps: credit, rule order, and fail-closed on a terminated agent.  The
    configuration is the default one, and each store is reached by operations from
    the empty store. */
module PipelineWitnesses {
  import opened Text
  import opened Verdicts
  import opened Policy
  import opened Pipeline
  import opened PipelineReasons
  import opened PipelineRecord
  import opened PipelineTrust
  import Trust

  function SimpleRule(name: string, action: Action, reason: string): Rule {
    Rule(name, "*", action, reason, "", Deterministic, [], [], None, [], "")
  }

  const Hold := SimpleRule("hold", RequireApproval, "held")
  const Flag := SimpleRule("r1", Warn, "flagged")
  const Segment := SimpleRule("segment", Warn, "the host is ISOLATED")
  const Watch := SimpleRule("watch", Warn, "flagged")

  // --- The bare pipeline ------------------------------------------------------------------------

  lemma BareEvalKeeps(rules: seq<Rule>, env: Engines, trust: Option<TrustChecker>, req: Request, d: Decision, posture: TrustState)
    requires !d.trustCountable
    ensures var p := BareSetup(rules, env, trust);
            InterceptStage(p, req, d, posture) == Go(d, posture) && EvalStage(p, req, d, posture) == Concluded(d)
  {
    var p := BareSetup(rules, env, trust);
    var ev := p.evaluate(req, d.trustScore, posture).value.value;
    assert TakeVerdict(p, req, d.ruling, ev) == Taken(d.ruling, false, false);
    assert TakeAction(p, req, d, ev) == d;
  }

  /** A live agent's call that a rule flags or holds, as deliberated. */
  lemma RuledDeliberation(rules: seq<Rule>, env: Engines, cfg: Trust.Config, states: Trust.States, req: Request, w: Rule)
    requires req.agentId != "" && !IsBlocked(states, req.agentId)
    requires Winner(rules, req, env) == Some(w) && (w.action == Warn || w.action == RequireApproval)
    ensures var d := Deliberate(Over(BareSetup(rules, env, None), cfg, states), req);
            && d.Concluded? && d.decision.check.None? && !d.decision.dryRun
            && d.decision.ruling == ApplyWinner(Initial.ruling, w)
  {
    var p := Over(BareSetup(rules, env, None), cfg, states);
    LiveAgentGoes(BareSetup(rules, env, None), cfg, states, req);
    BareTrustStage(p, req);
    var s := AfterTrust(p, req);
    var d := StaticStage(p, req, s.decision, s.posture).decision;
    assert AfterStatic(p, req) == Go(d, s.posture);
    assert p == BareSetup(rules, env, p.trust);
    BareEvalKeeps(rules, env, p.trust, req, d, s.posture);
  }

  lemma BareTrustStage(p: Setup, req: Request)
    requires !p.requireAgentId && AfterTrust(p, req).Go? && TrustObtained(p, req)
    ensures var d := AfterTrust(p, req).decision;
            d.ruling == Initial.ruling && d.check.None? && !d.dryRun && !d.trustCountable && d.matchedRules == []
  {
  }

  lemma FirstRuleWins(first: Rule, rest: seq<Rule>, req: Request, env: Engines)
    requires |rest| <= 1 && (rest != [] ==> StaticRank(rest[0].action) <= StaticRank(first.action))
    requires MatchesRequest(first, req, env)
    ensures Winner([first] + rest, req, env) == Some(first)
  {
    assert [first][..0] == [];
    assert Winner([first], req, env) == Some(first);
    if rest != [] {
      assert ([first] + rest)[..1] == [first];
    } else {
      assert [first] + rest == [first];
    }
  }

  lemma Unmarked()
    ensures !TrustMarked("flagged") && !TrustMarked("held")
  {
  }

  lemma Marked()
    ensures TrustMarked("the host is ISOLATED")
  {
    ContainsMiddle("the host", " is ISOLATED", "");
    assert "the host is ISOLATED" == "the host" + " is ISOLATED" + "";
  }

  // --- A degraded agent -----------------------------------------------------------------------

  /** The store after one call of the agent that was held for approval. */
  function DegradedStore(env: Engines, req: Request): Trust.States {
    After(Trust.Defaults, map[], [Evaluation(BareSetup([Hold], env, None), req)])
  }

  lemma OneHoldDegrades()
    ensures Trust.Fold(Trust.Defaults, Trust.Fresh(Trust.Defaults), Trust.Partial).state == Evaluating
  {
    assert Trust.Score(1.5, 1.5) == 0.5;
  }

  lemma HoldIsPartial(env: Engines, req: Request)
    requires req.agentId != ""
    ensures Submitted(Trust.Defaults, map[], BareSetup([Hold], env, None), req) == Some(Trust.Partial)
  {
    FirstRuleWins(Hold, [], req, env);
    assert [Hold] + [] == [Hold];
    RuledDeliberation([Hold], env, Trust.Defaults, map[], req, Hold);
    Unmarked();
  }

  lemma AfterOne(cfg: Trust.Config, states: Trust.States, op: Op)
    ensures After(cfg, states, [op]) == Next(cfg, states, op)
  {
    AfterAppend(cfg, states, [], op);
    assert [] + [op] == [op];
  }

  lemma NextRecords(cfg: Trust.Config, states: Trust.States, p: Setup, req: Request, o: Trust.Outcome)
    requires Submitted(cfg, states, p, req) == Some(o)
    ensures Next(cfg, states, Evaluation(p, req)) == Trust.Recorded(cfg, states, req.agentId, o)
  {
  }

  lemma DegradedStoreIs(env: Engines, req: Request)
    requires req.agentId != ""
    ensures req.agentId in DegradedStore(env, req) && DegradedStore(env, req)[req.agentId].state == Evaluating
  {
    HoldIsPartial(env, req);
    NextRecords(Trust.Defaults, map[], BareSetup([Hold], env, None), req, Trust.Partial);
    AfterOne(Trust.Defaults, map[], Evaluation(BareSetup([Hold], env, None), req));
    OneHoldDegrades();
  }

  /** The bare pipeline with these rules over that store. */
  function DegradedSetup(rules: seq<Rule>, env: Engines, req: Request): Setup {
    Over(BareSetup(rules, env, None), Trust.Defaults, DegradedStore(env, req))
  }

  /** A degraded agent's flagged call is held for approval, unless the flag's words
      carry a marker, and is credited to the rule that flagged it either way. */
  lemma FlaggedAnswer(rules: seq<Rule>, env: Engines, states: Trust.States, req: Request, w: Rule)
    requires req.agentId != "" && req.agentId in states && states[req.agentId].state == Evaluating
    requires Winner(rules, req, env) == Some(w) && w.action == Warn
    ensures var p := Over(BareSetup(rules, env, None), Trust.Defaults, states);
            var answer, event := Answer(p, req), Events(p, req, Deliberate(p, req).decision)[0];
            && answer.Some? && answer.value.ruling == event.ruling
            && event.ruling.action == (if TrustMarked(w.reason) then Warn else RequireApproval)
            && event.ruling.credit == CreditOf(w)
  {
    var p := Over(BareSetup(rules, env, None), Trust.Defaults, states);
    RuledDeliberation(rules, env, Trust.Defaults, states, req, w);
    var d := Deliberate(p, req).decision;
    assert Render(d.ruling.reason) == w.reason;
    if Submits(p, req, d) {
      assert Recorded(p, req, d)
        == Value(PipelineUpdate(Trust.UpdateOf(Trust.Defaults, states, req.agentId, Trust.Neutral)));
    }
  }

  /** A rule that only flags is credited with a hold it never asked for. */
  lemma {:induction false} FlagCreditedWithHold(env: Engines, req: Request)
    requires req.agentId != ""
    ensures var p := DegradedSetup([Flag], env, req);
            var answer, event := Answer(p, req), Events(p, req, Deliberate(p, req).decision)[0];
            && answer.Some? && answer.value.ruling == event.ruling
            && event.ruling.action == RequireApproval && event.ruling.credit.matchedRule == "r1"
            && !Honest(event.ruling, Winner([Flag], req, env))
  {
    FirstRuleWins(Flag, [], req, env);
    assert [Flag] + [] == [Flag];
    DegradedStoreIs(env, req);
    FlaggedAnswer([Flag], env, DegradedStore(env, req), req, Flag);
    Unmarked();
  }

  lemma FirstFlagAnswers(a: Rule, b: Rule, env: Engines, req: Request)
    requires req.agentId != "" && a == SimpleRule(a.name, Warn, a.reason) && b == SimpleRule(b.name, Warn, b.reason)
    ensures var x := Answer(DegradedSetup([a, b], env, req), req);
            x.Some? && x.value.ruling.action == (if TrustMarked(a.reason) then Warn else RequireApproval)
  {
    FirstRuleWins(a, [b], req, env);
    assert [a] + [b] == [a, b];
    DegradedStoreIs(env, req);
    FlaggedAnswer([a, b], env, DegradedStore(env, req), req, a);
  }

  /** Two flag rules: one order permits the call, the other holds it. */
  lemma {:induction false} RuleOrderChangesAnswer(env: Engines, req: Request)
    requires req.agentId != ""
    ensures multiset([Segment, Watch]) == multiset([Watch, Segment])
    ensures var x := Answer(DegradedSetup([Segment, Watch], env, req), req);
            x.Some? && x.value.ruling.action == Warn
    ensures var y := Answer(DegradedSetup([Watch, Segment], env, req), req);
            y.Some? && y.value.ruling.action == RequireApproval
  {
    FirstFlagAnswers(Segment, Watch, env, req);
    FirstFlagAnswers(Watch, Segment, env, req);
    Marked();
    Unmarked();
  }

  // --- An agent terminated meanwhile --------------------------------------------------------------

  /** The in-process backend read over one store in stage 1 and written over another
      in the deferred block, as when another call changed it in between. */
  function SplitBackend(cfg: Trust.Config, checked: Trust.States, recorded: Trust.States): TrustChecker {
    TrustChecker(Backend(cfg, checked).check, Backend(cfg, recorded).record)
  }

  /** The agent is terminated between the check and the update: the call is permitted
      all the same, and the answer says TERMINATED. */
  lemma {:induction false} TerminatedUpdatePermits(env: Engines, req: Request)
    requires req.agentId != ""
    ensures var terminated := Next(Trust.Defaults, map[], Terminate(req.agentId));
            var answer := Answer(BareSetup([], env, Some(SplitBackend(Trust.Defaults, map[], terminated))), req);
            answer.Some? && Allowed(answer.value) && answer.value.trustState == Terminated
  {
    var terminated := Next(Trust.Defaults, map[], Terminate(req.agentId));
    var p := BareSetup([], env, Some(SplitBackend(Trust.Defaults, map[], terminated)));
    assert p.trust.value.check(req.agentId) == Value(Trusted);
    assert IdentityCheck(p, req) == Go(Initial, Trusted);
    assert AfterTrust(p, req) == Go(Initial, Trusted);
    assert AfterStatic(p, req) == Go(Initial, Trusted);
    BareEvalKeeps([], env, p.trust, req, Initial, Trusted);
    assert Deliberate(p, req) == Concluded(Initial);
    assert Render(Initial.ruling.reason) == "";
    assert !TrustMarked("");
    assert Recorded(p, req, Initial)
      == Value(PipelineUpdate(Trust.UpdateOf(Trust.Defaults, terminated, req.agentId, Trust.Success)));
  }
}
