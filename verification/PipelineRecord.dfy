/** What the decision record may claim: the rule it credits, the rules it lists,
    the failed check it names and the trust posture it reports. */
module PipelineRecord {
  import opened Verdicts
  import opened Policy
  import opened Pipeline
  import opened PipelineLaws

  function CreditOf(w: Rule): Attribution {
    Attribution(w.name, w.name, w.policyFile)
  }

  /** A ruling credits a static rule only if that rule won stage 2 and the action is
      that rule's own verdict; a failed check may stand in for an allow rule's. */
  ghost predicate Honest(v: Ruling, winner: Option<Rule>) {
    v.credit.matchedRule != "" ==>
      && winner.Some? && v.credit == CreditOf(winner.value)
      && (v.action == RuleVerdict(winner.value.action)
          || (v.action == CheckIndeterminate && RuleVerdict(winner.value.action) == Allow))
  }

  /** A decision whose failed check left the trust posture unknown claims none. */
  ghost predicate ClaimsNoPosture(d: Decision) {
    d.check.Some? && d.check.value.stage in {TrustStage, IdentityStage, ConfigStage} ==> d.trustScore == 0.0 && d.trustState == Unknown
  }

  /** e follows from d at a later stage: rules listed, posture and first failed
      check are carried over. */
  ghost predicate CarriedOver(d: Decision, e: Decision) {
    && e.matchedRules == d.matchedRules && e.trustScore == d.trustScore && e.trustState == d.trustState
    && (d.check.Some? ==> e.check == d.check)
    && (e.check.Some? && d.check.None? ==> !VoidsPosture(e.check.value.stage))
  }

  lemma CarriedOnward(d: Decision, e: Decision, f: Decision)
    requires CarriedOver(d, e) && CarriedOver(e, f)
    ensures CarriedOver(d, f)
  {
  }

  lemma MarkCarries(d: Decision, cf: CheckFailure, enforcing: bool, w: Option<Rule>)
    requires !VoidsPosture(cf.stage)
    ensures CarriedOver(d, MarkEnforced(d, cf, enforcing))
    ensures Honest(d.ruling, w) ==> Honest(MarkEnforced(d, cf, enforcing).ruling, w)
  {
  }

  lemma AdoptStricterHonest(v: Ruling, a: Action, reason: string, w: Option<Rule>)
    requires Honest(v, w)
    ensures Honest(AdoptStricter(v, a, reason), w)
    ensures IsStricter(v, a) ==> AdoptStricter(v, a, reason).credit.matchedRule == ""
  {
  }

  lemma TrustStageRecord(p: Setup, req: Request)
    ensures var d := AfterTrust(p, req).decision;
            ClaimsNoPosture(d) && d.ruling.credit == Unattributed && d.matchedRules == []
  {
  }

  lemma StaticStageRecord(p: Setup, req: Request, d: Decision, posture: TrustState)
    requires d.ruling.action == Allow && d.ruling.credit == Unattributed && d.matchedRules == []
    ensures var e := StaticStage(p, req, d, posture).decision;
            && Honest(e.ruling, Winner(p.rules, req, p.env))
            && e.matchedRules == MatchedNames(p.rules, req, p.env)
            && e.trustScore == d.trustScore && e.trustState == d.trustState && e.check == d.check
  {
    assert [] + MatchedNames(p.rules, req, p.env) == MatchedNames(p.rules, req, p.env);
  }

  lemma InterceptStageRecord(p: Setup, req: Request, d: Decision, posture: TrustState, w: Option<Rule>)
    requires Honest(d.ruling, w)
    ensures var e := InterceptStage(p, req, d, posture).decision;
            CarriedOver(d, e) && Honest(e.ruling, w)
  {
    var c := p.intercept(req);
    var fault := InterceptFault(c);
    if fault.Some? {
      MarkCarries(d, fault.value, Enforces(p, req), w);
    } else if c.value.Some? && !c.value.value.allowed {
      AdoptStricterHonest(d.ruling, BlockingAction(c.value.value), c.value.value.reason, w);
    }
  }

  lemma TakeVerdictHonest(p: Setup, req: Request, v: Ruling, ev: EvalDecision, w: Option<Rule>)
    requires Honest(v, w)
    ensures var t := TakeVerdict(p, req, v, ev);
            Honest(t.ruling, w) && (t.adopted ==> t.ruling.credit.matchedRule == "")
  {
    AdoptStricterHonest(v, EvalActionVerdict(ev.action), if ev.action == EvalEscalate then ev.escalationReason else ev.reason, w);
  }

  lemma AdoptRecord(p: Setup, req: Request, d: Decision, ev: EvalDecision, denied: bool, w: Option<Rule>)
    requires Honest(d.ruling, w)
    ensures var e := Adopt(p, req, d, ev, denied).decision;
            CarriedOver(d, e) && Honest(e.ruling, w)
  {
    var t := TakeVerdict(p, req, d.ruling, ev);
    TakeVerdictHonest(p, req, d.ruling, ev, w);
    var taken := TakeAction(p, req, d, ev);
    if ev.action == EvalUnknown {
      MarkCarries(d, CheckFailure(PolicyEvalStage, InvalidResult, EvaluationUnknownAction), Enforces(p, req), w);
    }
    var named := taken.(ruling := NamePolicy(taken.ruling, t.adopted, ev.matchedPolicy));
    assert Honest(named.ruling, w);
    MarkCarries(named, CheckFailure(PolicyEvalStage, SkipCategory(ev), RuleSkipped), Enforces(p, req), w);
  }

  lemma EvalStageRecord(p: Setup, req: Request, d: Decision, posture: TrustState, w: Option<Rule>)
    requires Honest(d.ruling, w)
    ensures var e := EvalStage(p, req, d, posture).decision;
            CarriedOver(d, e) && Honest(e.ruling, w)
  {
    var c := p.evaluate(req, d.trustScore, posture);
    if EvalFault(c).Some? {
      MarkCarries(d, EvalFault(c).value, Enforces(p, req), w);
    } else {
      var ev := c.value.value;
      var marked := Mark(p, req, d, PolicyEvalStage, SkipCategory(ev), RuleSkipped);
      MarkCarries(d, CheckFailure(PolicyEvalStage, SkipCategory(ev), RuleSkipped), Enforces(p, req), w);
      if ev.errors != [] && ev.action != EvalDeny {
        AdoptRecord(p, req, marked, ev, false, w);
      } else {
        AdoptRecord(p, req, d, ev, ev.errors != [], w);
      }
    }
  }

  /** Before the trust update, whatever the collaborators do: past the trust check
      the decision lists every matching rule and keeps the posture obtained; it
      credits a rule only with that rule's own verdict; and with no posture
      obtained it claims none. */
  lemma {:induction false} DeliberationHonest(p: Setup, req: Request)
    ensures var d := Deliberate(p, req).decision;
            && ClaimsNoPosture(d)
            && Honest(d.ruling, Winner(p.rules, req, p.env))
            && (p.configErr.None? && AfterTrust(p, req).Go? ==>
                  d.matchedRules == MatchedNames(p.rules, req, p.env) && d.trustState == AfterTrust(p, req).decision.trustState)
  {
    if p.configErr.Some? {
      return;
    }
    TrustStageRecord(p, req);
    TrustGoAllows(p, req);
    var s1 := AfterTrust(p, req);
    var w := Winner(p.rules, req, p.env);
    if s1.Go? {
      StaticStageRecord(p, req, s1.decision, s1.posture);
      var s2 := AfterStatic(p, req);
      if s2.Go? {
        InterceptStageRecord(p, req, s2.decision, s2.posture, w);
        var s3 := AfterIntercept(p, req);
        if s3.Go? {
          EvalStageRecord(p, req, s3.decision, s3.posture, w);
          CarriedOnward(s2.decision, s3.decision, EvalStage(p, req, s3.decision, s3.posture).decision);
        }
      }
    }
  }

  // --- The emitted record ---------------------------------------------------------------------

  /** The trust update replaces a permitting verdict by its own. */
  predicate TrustOverrules(p: Setup, req: Request, d: Decision) {
    && Allowed(d) && Submits(p, req, d) && Recorded(p, req, d).Value?
    && (Recorded(p, req, d).value.after == Isolated || Recorded(p, req, d).value.after == Evaluating)
  }

  lemma SettleHonestExactly(p: Setup, req: Request, d: Decision, w: Option<Rule>)
    requires Honest(d.ruling, w)
    ensures Honest(Settle(p, req, d).ruling, w) <==> !(d.ruling.credit.matchedRule != "" && TrustOverrules(p, req, d))
    ensures Settle(p, req, d).matchedRules == d.matchedRules
  {
    if Submits(p, req, d) && !Recorded(p, req, d).Value? {
      MarkCarries(d, CheckFailure(TrustUpdateStage, FaultOf(Recorded(p, req, d)), TrustUpdateFailed), Enforces(p, req), w);
    }
  }

  /** The emitted record lists every matching rule, and credits a rule with a
      verdict that is not its own exactly when the trust update overrules a call
      that a rule had allowed or flagged: the update keeps the rule's credit. With
      dry-run off the answer carries the same ruling. */
  lemma {:induction false} RecordHonestExactly(p: Setup, req: Request)
    ensures var d := Deliberate(p, req).decision;
            var event := Events(p, req, d)[0];
            && (Honest(event.ruling, Winner(p.rules, req, p.env))
                <==> !(d.ruling.credit.matchedRule != "" && TrustOverrules(p, req, d)))
            && (p.configErr.None? && AfterTrust(p, req).Go? ==> event.matchedRules == MatchedNames(p.rules, req, p.env))
            && (Answer(p, req).Some? && !p.dryRun ==> Answer(p, req).value.ruling == event.ruling)
  {
    DeliberationHonest(p, req);
    SettleHonestExactly(p, req, Deliberate(p, req).decision, Winner(p.rules, req, p.env));
  }

  lemma SettlePosture(p: Setup, req: Request, d: Decision)
    requires ClaimsNoPosture(d)
    ensures var e := ConvertDryRun(p, Settle(p, req, d));
            if Submits(p, req, d) && Recorded(p, req, d).Value?
            then e.trustScore == Recorded(p, req, d).value.score && e.trustState == Recorded(p, req, d).value.after
            else ClaimsNoPosture(e)
  {
    if Submits(p, req, d) && !Recorded(p, req, d).Value? {
      MarkCarries(d, CheckFailure(TrustUpdateStage, FaultOf(Recorded(p, req, d)), TrustUpdateFailed), Enforces(p, req), None);
    }
  }

  /** The posture of an answer is the one its trust update returned, and without a
      completed update an answer whose check obtained no posture claims none. */
  lemma AnswerPosture(p: Setup, req: Request)
    ensures var d := Deliberate(p, req).decision;
            Answer(p, req).Some? ==>
              if Submits(p, req, d) && Recorded(p, req, d).Value?
              then Answer(p, req).value.trustScore == Recorded(p, req, d).value.score
                   && Answer(p, req).value.trustState == Recorded(p, req, d).value.after
              else ClaimsNoPosture(Answer(p, req).value)
  {
    DeliberationHonest(p, req);
    SettlePosture(p, req, Deliberate(p, req).decision);
  }

  // --- A permitted call and a blocked state -------------------------------------------------------

  lemma TrustGoNotBlocked(p: Setup, req: Request)
    ensures AfterTrust(p, req).Go? ==> !Blocked(AfterTrust(p, req).decision.trustState)
  {
  }

  /** A permitted answer reports a blocked agent exactly when the trust update came
      back TERMINATED: the deferred block stops for ISOLATED and EVALUATING only. */
  lemma {:induction false} PermittedWhileBlockedExactly(p: Setup, req: Request)
    requires !p.dryRun
    ensures Answer(p, req).Some? && Allowed(Answer(p, req).value) ==>
              var d := Deliberate(p, req).decision;
              (Blocked(Answer(p, req).value.trustState)
               <==> Submits(p, req, d) && Recorded(p, req, d).Value? && Recorded(p, req, d).value.after == Terminated)
  {
    if Answer(p, req).Some? && Allowed(Answer(p, req).value) {
      PermittedPassedTrust(p, req);
      TrustGoNotBlocked(p, req);
      DeliberationHonest(p, req);
      SettlePosture(p, req, Deliberate(p, req).decision);
      SettleKeepsState(p, req, Deliberate(p, req).decision);
    }
  }

  lemma SettleKeepsState(p: Setup, req: Request, d: Decision)
    ensures !(Submits(p, req, d) && Recorded(p, req, d).Value?) ==> Settle(p, req, d).trustState == d.trustState
  {
  }
}
