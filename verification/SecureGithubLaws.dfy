/** Session safety of the Secure GitHub profile over every sequential run. */
module SecureGithubLaws {
  import opened Text
  import opened Verdicts
  import opened Policy
  import opened Pipeline
  import opened PipelineLaws
  import opened SecureGithub

  // --- What the built-in rules match -------------------------------------------------------

  lemma EqualsKind()
    ensures Lower(TrimSpace("equals")) == "equals"
  {
    assert TrimLeft("equals") == "equals";
    assert TrimRight("equals") == "equals";
  }

  lemma ArgumentField(req: Request, key: string)
    requires key != "text"
    ensures RequestField(req, "arguments." + key) == Argument(req, key)
  {
    var field := "arguments." + key;
    assert field[0] == 'a' && |field| == 10 + |key|;
    assert field[10..] == key;
    assert "arguments.text"[10..] == "text";
  }

  /** An equality condition on an argument holds exactly when the request carries
      that argument with that text. */
  lemma EqMatches(req: Request, env: Engines, key: string, value: string)
    requires key != "text" && TrimSpace(value) != ""
    ensures Matches(Eq(key, value), req, env) <==> key in req.arguments && req.arguments[key] == value
  {
    EqualsKind();
    ArgumentField(req, key);
    var m := Eq(key, value);
    assert TrimSpace("") == "";
    assert [m.contains, m.value][1..] == [value];
    assert FirstNonEmpty([m.contains, m.value]) == value;
    assert m.field != "" && m.field[0] == 'a';
  }

  ghost predicate Has(args: map<string, string>, key: string, value: string) {
    key in args && args[key] == value
  }

  /** What the built-in rules see of an envelope. */
  ghost predicate Carries(req: Request, e: Envelope) {
    && req.transport == Transport && req.toolName == "github." + ToolText(e.kind.tool)
    && Has(req.arguments, "profile_id", ProfileId)
    && Has(req.arguments, "capability_class", CapabilityText(e.kind.capability))
    && Has(req.arguments, "target_sink", e.kind.sink)
    && Has(req.arguments, "tainted", BoolText(e.tainted))
    && Has(req.arguments, "repo_scope_violation", BoolText(e.violation))
  }

  lemma RequestCarries(e: Envelope)
    ensures Carries(RequestOf(e), e)
  {
    var d := Decisive(e);
    assert d["profile_id"] == ProfileId;
    assert d["capability_class"] == CapabilityText(e.kind.capability);
    assert d["target_sink"] == e.kind.sink;
    assert d["tainted"] == BoolText(e.tainted);
  }

  lemma CapabilityTexts(a: Capability, b: Capability)
    ensures TrimSpace(CapabilityText(a)) != ""
    ensures CapabilityText(a) == CapabilityText(b) <==> a == b
  {
    var t := CapabilityText(a);
    assert |t| == 2 && t[0] in {'R', 'W'} && t[1] in {'0', '1', '2'};
    assert TrimLeft(t) == t;
    assert TrimRight(t) == t;
  }

  /** A built-in rule fires on a GitHub request exactly when its conditions hold. */
  lemma DenyRuleFires(req: Request, tool: Tool, env: Engines, name: string, reason: string, conditions: seq<Matcher>)
    requires GlobsGithub(env) && req.transport == Transport && req.toolName == "github." + ToolText(tool)
    ensures MatchesRequest(DenyRule(name, reason, conditions), req, env)
       <==> forall i :: 0 <= i < |conditions| ==> Matches(conditions[i], req, env)
  {
    ToolTextHasNoSlash(tool);
  }

  lemma FlagMatches(req: Request, env: Engines, key: string, on: bool)
    requires key != "text" && Has(req.arguments, key, BoolText(on))
    ensures Matches(Eq(key, "true"), req, env) <==> on
  {
    assert TrimLeft("true") == "true" && TrimRight("true") == "true";
    EqMatches(req, env, key, "true");
  }

  lemma ProfileMatches(req: Request, e: Envelope, env: Engines)
    requires Carries(req, e)
    ensures Matches(Eq("profile_id", ProfileId), req, env)
  {
    assert TrimLeft(ProfileId) == ProfileId && TrimRight(ProfileId) == ProfileId;
    EqMatches(req, env, "profile_id", ProfileId);
  }

  lemma SinkMatches(req: Request, e: Envelope, env: Engines)
    requires Carries(req, e)
    ensures Matches(Eq("target_sink", "private_repo"), req, env) <==> e.kind.sink == "private_repo"
  {
    assert TrimLeft("private_repo") == "private_repo" && TrimRight("private_repo") == "private_repo";
    EqMatches(req, env, "target_sink", "private_repo");
  }

  lemma CapabilityMatches(req: Request, e: Envelope, env: Engines, capability: Capability)
    requires Carries(req, e)
    ensures Matches(Eq("capability_class", CapabilityText(capability)), req, env) <==> e.kind.capability == capability
  {
    CapabilityTexts(capability, e.kind.capability);
    EqMatches(req, env, "capability_class", CapabilityText(capability));
  }

  lemma CrossRepoFires(req: Request, e: Envelope, env: Engines)
    requires GlobsGithub(env)
    ensures Carries(req, e) ==> (MatchesRequest(CrossRepo, req, env) <==> e.violation)
  {
    if !Carries(req, e) {
      return;
    }
    var cs := CrossRepo.conditions;
    assert cs[0] == Eq("profile_id", ProfileId) && cs[1] == Eq("repo_scope_violation", "true");
    DenyRuleFires(req, e.kind.tool, env, CrossRepo.name, CrossRepo.reason, cs);
    ProfileMatches(req, e, env);
    FlagMatches(req, env, "repo_scope_violation", e.violation);
  }

  lemma AfterTaintFires(req: Request, e: Envelope, env: Engines, name: string, reason: string, capability: Capability)
    requires GlobsGithub(env)
    ensures Carries(req, e) ==>
              (MatchesRequest(AfterTaint(name, reason, capability), req, env)
               <==> e.tainted && e.kind.sink == "private_repo" && e.kind.capability == capability)
  {
    if !Carries(req, e) {
      return;
    }
    var cs := AfterTaint(name, reason, capability).conditions;
    assert cs[0] == Eq("profile_id", ProfileId) && cs[1] == Eq("tainted", "true");
    assert cs[2] == Eq("target_sink", "private_repo") && cs[3] == Eq("capability_class", CapabilityText(capability));
    DenyRuleFires(req, e.kind.tool, env, name, reason, cs);
    ProfileMatches(req, e, env);
    FlagMatches(req, env, "tainted", e.tainted);
    SinkMatches(req, e, env);
    CapabilityMatches(req, e, env, capability);
  }

  // --- What a guarded pipeline lets through ----------------------------------------------------

  /** Any pipeline, on any transport setting, whose rules include the built-in ones
      and whose dry-run is off. */
  ghost predicate Guarded(p: Setup) {
    && (forall r :: r in DefaultPolicyRules ==> r in p.rules)
    && !p.dryRun && GlobsGithub(p.env)
  }

  ghost predicate Violates(e: Envelope) {
    e.violation || (e.tainted && PrivateWrite(e))
  }

  /** Some built-in rule fires exactly on a violating envelope. */
  lemma BuiltInRulesExact(e: Envelope, env: Engines)
    requires GlobsGithub(env)
    ensures Violates(e) <==> exists r :: r in DefaultPolicyRules && MatchesRequest(r, RequestOf(e), env)
  {
    var req := RequestOf(e);
    RequestCarries(e);
    CrossRepoFires(req, e, env);
    AfterTaintFires(req, e, env, WriteAfterTaint.name, WriteAfterTaint.reason, W1);
    AfterTaintFires(req, e, env, CriticalAfterTaint.name, CriticalAfterTaint.reason, W2);
    assert DefaultPolicyRules[0] == CrossRepo && DefaultPolicyRules[1] == WriteAfterTaint && DefaultPolicyRules[2] == CriticalAfterTaint;
  }

  lemma {:induction false} GuardedRefuses(p: Setup, e: Envelope)
    requires Guarded(p)
    ensures var answer := Answer(p, RequestOf(e)); answer.Some? && Allowed(answer.value) ==> !Violates(e)
  {
    var req := RequestOf(e);
    BuiltInRulesExact(e, p.env);
    if Violates(e) {
      var r :| r in DefaultPolicyRules && MatchesRequest(r, req, p.env);
      DenyRuleDecides(p.rules, req, p.env, r);
      StaticDenyStands(p, req);
    }
  }

  /** The profile's own pipeline: the built-in rules, no trust checker, no
      interceptor, no handler, and an evaluator with no policies. */
  function PreviewSetup(env: Engines): Setup {
    BareSetup(DefaultPolicyRules, env, None)
  }

  /** The profile's own pipeline forwards exactly the calls that do not violate. */
  lemma {:induction false} PreviewExact(env: Engines, e: Envelope, ok: bool)
    requires GlobsGithub(env)
    ensures Upstreamed(Dispatch(PreviewSetup(env), e, ok)) <==> !Violates(e)
  {
    var p, req := PreviewSetup(env), RequestOf(e);
    DispatchKeeps(p, e, ok);
    BuiltInRulesExact(e, env);
    if Violates(e) {
      GuardedRefuses(p, e);
    } else {
      WinnerIsStrictest(p.rules, req, env);
      assert StaticVerdict(p.rules, req, env) == Allow;
      PreviewPasses(p, req, env);
      PermitsExactly(p, req);
    }
  }

  lemma PreviewPasses(p: Setup, req: Request, env: Engines)
    requires p == PreviewSetup(env) && StaticVerdict(p.rules, req, env) == Allow
    ensures AfterTrust(p, req).Go? && EveryCheckPassed(p, req)
  {
    TrustStageOpen(p, req);
  }

  // --- Whole runs ---------------------------------------------------------------------------------

  datatype Step = Step(call: ToolCall, ok: bool)

  function StoreAfter(cfg: ProfileConfig, p: Setup, start: Sessions, steps: seq<Step>): Sessions {
    if steps == [] then start
    else
      var last := steps[|steps| - 1];
      Govern(cfg, p, StoreAfter(cfg, p, start, steps[..|steps| - 1]), last.call, last.ok).0
  }

  function OutcomeAt(cfg: ProfileConfig, p: Setup, start: Sessions, steps: seq<Step>, i: nat): Outcome
    requires i < |steps|
  {
    Govern(cfg, p, StoreAfter(cfg, p, start, steps[..i]), steps[i].call, steps[i].ok).1
  }

  /** What a session has committed to is kept: its repository and its taint. */
  ghost predicate Keeps(s: Session, t: Session) {
    && (!Unbound(s) ==> t.owner == s.owner && t.repo == s.repo)
    && (s.tainted ==> t.tainted)
  }

  lemma OutcomeKeeps(store: Sessions, o: Outcome, id: string)
    ensures Keeps(Lookup(store, id), Lookup(AfterOutcome(store, o), id))
  {
  }

  lemma StepKeeps(cfg: ProfileConfig, p: Setup, store: Sessions, call: ToolCall, ok: bool, id: string)
    ensures Keeps(Lookup(store, id), Lookup(Govern(cfg, p, store, call, ok).0, id))
  {
    var c := ClassifyTool(CalledTool(call), CalledArgs(call));
    if c.Some? {
      var s := Admitted(cfg, store, call);
      var bound := store[SessionKey(SessionOf(call, cfg)) := s];
      assert Keeps(Lookup(store, id), Lookup(bound, id));
      OutcomeKeeps(bound, Dispatch(p, EnvelopeOf(call, c.value, cfg, s), ok), id);
    }
  }

  lemma {:induction false} RunKeeps(cfg: ProfileConfig, p: Setup, start: Sessions, steps: seq<Step>, i: nat, id: string)
    requires i <= |steps|
    ensures Keeps(Lookup(StoreAfter(cfg, p, start, steps[..i]), id), Lookup(StoreAfter(cfg, p, start, steps), id))
  {
    if i == |steps| {
      assert steps[..i] == steps;
    } else {
      var init, last := steps[..|steps| - 1], steps[|steps| - 1];
      assert init[..i] == steps[..i];
      RunKeeps(cfg, p, start, init, i, id);
      StepKeeps(cfg, p, StoreAfter(cfg, p, start, init), last.call, last.ok, id);
    }
  }

  /** A call that reached GitHub agreed with its session, before and after. */
  lemma {:induction false} UpstreamAgrees(c: ProfileConfig, p: Setup, store: Sessions, call: ToolCall, ok: bool)
    requires Guarded(p)
    ensures var r := Govern(WithDefaults(c), p, store, call, ok);
            Upstreamed(r.1) ==>
            var e, before, after := r.1.envelope, Lookup(store, r.1.envelope.sessionId), Lookup(r.0, r.1.envelope.sessionId);
            && after.owner == e.owner && after.repo == e.repo && !Unbound(after)
            && (!Unbound(before) ==> before.owner == e.owner && before.repo == e.repo)
            && !(before.tainted && PrivateWrite(e))
            && (r.1.Served? && e.kind.taints ==> after.tainted)
  {
    var cfg := WithDefaults(c);
    if !Upstreamed(Govern(cfg, p, store, call, ok).1) {
      return;
    }
    var args := CalledArgs(call);
    var t := ParseTool(CalledTool(call)).value;
    var kind := ClassOf(t, args);
    TaintingReads(t, args);
    OwnerIsSet(args, c);
    var s := Admitted(cfg, store, call);
    var e := EnvelopeOf(call, kind, cfg, s);
    DispatchKeeps(p, e, ok);
    GuardedRefuses(p, e);
    OutcomeKeeps(store[SessionKey(SessionOf(call, cfg)) := s], Dispatch(p, e, ok), e.sessionId);
  }

  /** All calls of one session that reach GitHub name the same repository. */
  lemma {:induction false} OneRepoPerSession(c: ProfileConfig, p: Setup, start: Sessions, steps: seq<Step>, i: nat, j: nat)
    requires Guarded(p) && i < j < |steps|
    ensures var a, b := OutcomeAt(WithDefaults(c), p, start, steps, i), OutcomeAt(WithDefaults(c), p, start, steps, j);
            Upstreamed(a) && Upstreamed(b) && a.envelope.sessionId == b.envelope.sessionId ==>
              a.envelope.owner == b.envelope.owner && a.envelope.repo == b.envelope.repo
  {
    var cfg := WithDefaults(c);
    if !Upstreamed(OutcomeAt(cfg, p, start, steps, i)) {
      return;
    }
    var id := OutcomeAt(cfg, p, start, steps, i).envelope.sessionId;
    UpstreamAgrees(c, p, StoreAfter(cfg, p, start, steps[..i]), steps[i].call, steps[i].ok);
    UpstreamAgrees(c, p, StoreAfter(cfg, p, start, steps[..j]), steps[j].call, steps[j].ok);
    StoreStep(cfg, p, start, steps, i, j);
    RunKeeps(cfg, p, start, steps[..j], i + 1, id);
  }

  lemma StoreStep(cfg: ProfileConfig, p: Setup, start: Sessions, steps: seq<Step>, i: nat, j: nat)
    requires i < j <= |steps|
    ensures StoreAfter(cfg, p, start, steps[..j][..i + 1])
         == Govern(cfg, p, StoreAfter(cfg, p, start, steps[..i]), steps[i].call, steps[i].ok).0
  {
    var prefix := steps[..j][..i + 1];
    assert |prefix| == i + 1 && prefix[i] == steps[i];
    assert prefix[..i] == steps[..i];
  }

  /** Once a session has read tainting content from GitHub, none of its calls that
      reach GitHub is a W1 or W2 write to a private repository. */
  lemma {:induction false} NoPrivateWriteAfterTaint(c: ProfileConfig, p: Setup, start: Sessions, steps: seq<Step>, i: nat, j: nat)
    requires Guarded(p) && i < j < |steps|
    ensures var a, b := OutcomeAt(WithDefaults(c), p, start, steps, i), OutcomeAt(WithDefaults(c), p, start, steps, j);
            a.Served? && a.envelope.kind.taints && Upstreamed(b) && a.envelope.sessionId == b.envelope.sessionId ==>
              !PrivateWrite(b.envelope)
  {
    var cfg := WithDefaults(c);
    if !Upstreamed(OutcomeAt(cfg, p, start, steps, i)) {
      return;
    }
    var id := OutcomeAt(cfg, p, start, steps, i).envelope.sessionId;
    UpstreamAgrees(c, p, StoreAfter(cfg, p, start, steps[..i]), steps[i].call, steps[i].ok);
    UpstreamAgrees(c, p, StoreAfter(cfg, p, start, steps[..j]), steps[j].call, steps[j].ok);
    StoreStep(cfg, p, start, steps, i, j);
    RunKeeps(cfg, p, start, steps[..j], i + 1, id);
  }
}
