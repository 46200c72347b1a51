/** The portable policy evaluator (policyeval/evaluator.go): an early-terminating
    scan over a priority-sorted policy list. */
module PolicyEval {
  import opened Verdicts
  import opened Pipeline
  import opened Conditions

  datatype PolicyActionType = DenyAction | WarnAction | RequireApprovalAction | OtherAction

  datatype PolicyAction = PolicyAction(kind: PolicyActionType, terminal: bool)

  datatype PolicyRule = PolicyRule(
    ruleId: string,
    enabled: bool,
    conditions: seq<Condition>,
    actions: seq<PolicyAction>)

  datatype Scope = Scope(
    applyToAll: bool,
    workflowIds: seq<string>,
    phases: seq<string>,
    roles: seq<string>,
    modelIds: seq<string>,
    toolNames: seq<string>)

  datatype Policy = Policy(
    policyId: string,
    tenantId: string,
    active: bool,
    priority: int,
    scope: Option<Scope>,
    rules: seq<PolicyRule>)

  /** What an evaluator is built with besides its policies. */
  datatype Settings = Settings(external: bool, lib: Libraries)

  // --- One rule -----------------------------------------------------------------------------

  datatype RuleResult = NoMatch | Match | Escalates(reason: string) | RuleFault(text: string, deadline: bool)

  /** The condition loop of evaluateRule from the i-th condition on. */
  function RuleFrom(rule: PolicyRule, i: nat, ctx: Context, st: Settings): RuleResult
    requires i <= |rule.conditions|
    decreases |rule.conditions| - i
  {
    if i == |rule.conditions| then Match
    else
      var c := rule.conditions[i];
      if c.kind == Semantic then Escalates("rule " + rule.ruleId + " has semantic condition requiring LLM evaluation")
      else if c.kind == ExternalCall && !st.external then
        Escalates("rule " + rule.ruleId + " has external call condition (disabled in this context)")
      else
        var r := EvaluateCondition(c, ctx, st.external, st.lib);
        if r.Fault? then RuleFault(r.text, r.deadline)
        else if !r.value then NoMatch
        else RuleFrom(rule, i + 1, ctx, st)
  }

  function EvaluateRule(rule: PolicyRule, ctx: Context, st: Settings): RuleResult {
    RuleFrom(rule, 0, ctx, st)
  }

  /** The condition is handed to a server instead of being evaluated here. */
  ghost predicate Deferred(c: Condition, st: Settings) {
    c.kind == Semantic || (c.kind == ExternalCall && !st.external)
  }

  /** The condition is evaluated here and holds. */
  ghost predicate Met(c: Condition, ctx: Context, st: Settings) {
    !Deferred(c, st) && EvaluateCondition(c, ctx, st.external, st.lib) == Holds(true)
  }

  /** Every condition before the i-th is met, and the i-th is not. */
  ghost predicate FirstUnmet(rule: PolicyRule, i: nat, ctx: Context, st: Settings) {
    && i < |rule.conditions| && !Met(rule.conditions[i], ctx, st)
    && forall k :: 0 <= k < i ==> Met(rule.conditions[k], ctx, st)
  }

  ghost predicate AllMet(rule: PolicyRule, ctx: Context, st: Settings) {
    forall k :: 0 <= k < |rule.conditions| ==> Met(rule.conditions[k], ctx, st)
  }

  ghost predicate DefersAt(rule: PolicyRule, i: nat, ctx: Context, st: Settings) {
    FirstUnmet(rule, i, ctx, st) && Deferred(rule.conditions[i], st)
  }

  ghost predicate FaultsAt(rule: PolicyRule, i: nat, ctx: Context, st: Settings) {
    && FirstUnmet(rule, i, ctx, st) && !Deferred(rule.conditions[i], st)
    && EvaluateCondition(rule.conditions[i], ctx, st.external, st.lib).Fault?
  }

  ghost predicate MissesAt(rule: PolicyRule, i: nat, ctx: Context, st: Settings) {
    && FirstUnmet(rule, i, ctx, st) && !Deferred(rule.conditions[i], st)
    && EvaluateCondition(rule.conditions[i], ctx, st.external, st.lib) == Holds(false)
  }

  /** The rule fires: it is enabled and all its conditions are met. */
  ghost predicate RuleFires(rule: PolicyRule, ctx: Context, st: Settings) {
    rule.enabled && AllMet(rule, ctx, st)
  }

  /** The first condition not met must go to a server. */
  ghost predicate RuleDefers(rule: PolicyRule, ctx: Context, st: Settings) {
    rule.enabled && exists i: nat :: DefersAt(rule, i, ctx, st)
  }

  /** The first condition not met cannot be evaluated. */
  ghost predicate Faults(rule: PolicyRule, ctx: Context, st: Settings) {
    rule.enabled && exists i: nat :: FaultsAt(rule, i, ctx, st)
  }

  lemma MetGoesOn(rule: PolicyRule, i: nat, ctx: Context, st: Settings)
    requires i < |rule.conditions| && Met(rule.conditions[i], ctx, st)
    ensures RuleFrom(rule, i, ctx, st) == RuleFrom(rule, i + 1, ctx, st)
  {
  }

  lemma AllMetMatches(rule: PolicyRule, ctx: Context, st: Settings)
    requires AllMet(rule, ctx, st)
    ensures EvaluateRule(rule, ctx, st) == Match
  {
    for j := 0 to |rule.conditions|
      invariant RuleFrom(rule, 0, ctx, st) == RuleFrom(rule, j, ctx, st)
    {
      MetGoesOn(rule, j, ctx, st);
    }
  }

  /** The first unmet condition decides what becomes of the rule. */
  lemma UnmetDecides(rule: PolicyRule, i: nat, k: nat, ctx: Context, st: Settings)
    requires FirstUnmet(rule, k, ctx, st) && i <= k
    ensures RuleFrom(rule, i, ctx, st) == RuleFrom(rule, k, ctx, st)
  {
    for j := i to k
      invariant RuleFrom(rule, i, ctx, st) == RuleFrom(rule, j, ctx, st)
    {
      MetGoesOn(rule, j, ctx, st);
    }
  }

  lemma {:induction false} SomeUnmet(rule: PolicyRule, i: nat, ctx: Context, st: Settings) returns (k: nat)
    requires i < |rule.conditions| && !Met(rule.conditions[i], ctx, st)
    ensures FirstUnmet(rule, k, ctx, st)
  {
    k := 0;
    while Met(rule.conditions[k], ctx, st)
      invariant k <= i && forall j :: 0 <= j < k ==> Met(rule.conditions[j], ctx, st)
      decreases i - k
    {
      k := k + 1;
    }
  }

  lemma UnmetUnique(rule: PolicyRule, i: nat, k: nat, ctx: Context, st: Settings)
    requires FirstUnmet(rule, i, ctx, st) && FirstUnmet(rule, k, ctx, st)
    ensures i == k
  {
  }

  /** A faulting rule reports the fault of the condition that faulted. */
  lemma FaultCarried(rule: PolicyRule, i: nat, ctx: Context, st: Settings)
    requires FaultsAt(rule, i, ctx, st)
    ensures var r := EvaluateCondition(rule.conditions[i], ctx, st.external, st.lib);
            EvaluateRule(rule, ctx, st) == RuleFault(r.text, r.deadline)
  {
    UnmetDecides(rule, 0, i, ctx, st);
  }

  /** What a rule comes to, on its conditions: it matches exactly when all are met;
      otherwise the first one that is not decides, by having to go to a server, by
      faulting, or by not holding. */
  lemma RuleExact(rule: PolicyRule, ctx: Context, st: Settings)
    ensures var r := EvaluateRule(rule, ctx, st);
            && (r.Match? <==> AllMet(rule, ctx, st))
            && (r.Escalates? <==> exists i: nat :: DefersAt(rule, i, ctx, st))
            && (r.RuleFault? <==> exists i: nat :: FaultsAt(rule, i, ctx, st))
            && (r.NoMatch? <==> exists i: nat :: MissesAt(rule, i, ctx, st))
  {
    if AllMet(rule, ctx, st) {
      AllMetMatches(rule, ctx, st);
    } else {
      var i: nat :| i < |rule.conditions| && !Met(rule.conditions[i], ctx, st);
      var k := SomeUnmet(rule, i, ctx, st);
      UnmetDecides(rule, 0, k, ctx, st);
      var r := EvaluateRule(rule, ctx, st);
      assert DefersAt(rule, k, ctx, st) == r.Escalates?;
      assert FaultsAt(rule, k, ctx, st) == r.RuleFault?;
      assert MissesAt(rule, k, ctx, st) == r.NoMatch?;
      forall j: nat | FirstUnmet(rule, j, ctx, st)
        ensures j == k
      {
        UnmetUnique(rule, j, k, ctx, st);
      }
    }
  }

  // --- One policy ---------------------------------------------------------------------------

  /** The verdict after one rule action. */
  function TakeRuleAction(a: EvalAction, kind: PolicyActionType): EvalAction {
    match kind
    case DenyAction => EvalDeny
    case WarnAction => if a == EvalAllow then EvalWarn else a
    case RequireApprovalAction => if a != EvalDeny then EvalRequireApproval else a
    case OtherAction => a
  }

  /** A matching rule's actions in order, up to a terminal one. */
  function TakeRuleActions(a: EvalAction, actions: seq<PolicyAction>): (EvalAction, bool)
    decreases |actions|
  {
    if actions == [] then (a, false)
    else
      var a' := TakeRuleAction(a, actions[0].kind);
      if actions[0].terminal then (a', true) else TakeRuleActions(a', actions[1..])
  }

  /** The state of one policy's rule scan. */
  datatype Scan = Scan(
    action: EvalAction,
    escalationReason: string,
    matched: seq<string>,
    actions: seq<PolicyAction>,
    errors: seq<string>,
    timedOut: bool,
    stopped: bool)

  const NoScan := Scan(EvalAllow, "", [], [], [], false, false)

  function RuleError(policyId: string, ruleId: string, text: string): string {
    "policy " + policyId + " rule " + ruleId + ": " + text
  }

  function ScanRule(policyId: string, rule: PolicyRule, ctx: Context, st: Settings, s: Scan): Scan {
    if !rule.enabled then s
    else
      match EvaluateRule(rule, ctx, st)
      case NoMatch => s
      case RuleFault(text, deadline) =>
        s.(errors := s.errors + [RuleError(policyId, rule.ruleId, text)], timedOut := s.timedOut || deadline)
      case Escalates(reason) =>
        s.(action := EvalEscalate, escalationReason := reason, matched := s.matched + [rule.ruleId], stopped := true)
      case Match =>
        var taken := TakeRuleActions(s.action, rule.actions);
        s.(action := taken.0, matched := s.matched + [rule.ruleId], actions := s.actions + rule.actions, stopped := taken.1)
  }

  function ScanRules(policyId: string, rules: seq<PolicyRule>, ctx: Context, st: Settings): Scan {
    if rules == [] then NoScan
    else
      var s := ScanRules(policyId, rules[..|rules| - 1], ctx, st);
      if s.stopped then s else ScanRule(policyId, rules[|rules| - 1], ctx, st, s)
  }

  function EvaluatePolicy(p: Policy, ctx: Context, st: Settings): Scan {
    if !p.active then NoScan else ScanRules(p.policyId, p.rules, ctx, st)
  }

  lemma {:induction false} StoppedStays(policyId: string, rules: seq<PolicyRule>, ctx: Context, st: Settings, i: nat)
    requires i <= |rules| && ScanRules(policyId, rules[..i], ctx, st).stopped
    ensures ScanRules(policyId, rules, ctx, st) == ScanRules(policyId, rules[..i], ctx, st)
  {
    if i == |rules| {
      assert rules[..i] == rules;
    } else {
      var init := rules[..|rules| - 1];
      assert init[..i] == rules[..i];
      StoppedStays(policyId, init, ctx, st, i);
    }
  }

  /** Some action of the list ends the scan. */
  ghost predicate HasTerminal(actions: seq<PolicyAction>) {
    exists i :: 0 <= i < |actions| && actions[i].terminal
  }

  lemma {:induction false} StopsAtTerminal(a: EvalAction, actions: seq<PolicyAction>)
    ensures TakeRuleActions(a, actions).1 <==> HasTerminal(actions)
    decreases |actions|
  {
    if actions != [] {
      StopsAtTerminal(TakeRuleAction(a, actions[0].kind), actions[1..]);
      assert forall i :: 1 <= i < |actions| ==> actions[i] == actions[1..][i - 1];
      assert forall i :: 0 <= i < |actions[1..]| ==> actions[1..][i] == actions[i + 1];
    }
  }

  /** How one more rule extends the scan of a policy, on the rule's conditions: a
      stopped scan ignores it; a rule that fires is listed with its actions and stops
      the scan at a terminal one; a deferred rule escalates and stops it; a faulting
      rule is reported and skipped; any other changes nothing. */
  lemma ScanStep(policyId: string, rules: seq<PolicyRule>, r: PolicyRule, ctx: Context, st: Settings)
    ensures var s, t := ScanRules(policyId, rules, ctx, st), ScanRules(policyId, rules + [r], ctx, st);
            if !s.stopped && RuleFires(r, ctx, st) then
              t == s.(action := t.action, matched := s.matched + [r.ruleId], actions := s.actions + r.actions, stopped := HasTerminal(r.actions))
            else if !s.stopped && RuleDefers(r, ctx, st) then
              t == s.(action := EvalEscalate, escalationReason := t.escalationReason, matched := s.matched + [r.ruleId], stopped := true)
            else if !s.stopped && Faults(r, ctx, st) then
              && |t.errors| == |s.errors| + 1
              && t == s.(errors := s.errors + [t.errors[|s.errors|]], timedOut := t.timedOut)
              && (s.timedOut ==> t.timedOut)
            else t == s
  {
    assert (rules + [r])[..|rules|] == rules;
    RuleExact(r, ctx, st);
    StopsAtTerminal(ScanRules(policyId, rules, ctx, st).action, r.actions);
  }

  /** What a deferred rule says: which rule, and what it has to ask. */
  lemma DeferralTells(policyId: string, rules: seq<PolicyRule>, r: PolicyRule, i: nat, ctx: Context, st: Settings)
    requires r.enabled && DefersAt(r, i, ctx, st) && !ScanRules(policyId, rules, ctx, st).stopped
    ensures ScanRules(policyId, rules + [r], ctx, st).escalationReason ==
              "rule " + r.ruleId + (if r.conditions[i].kind == Semantic then " has semantic condition requiring LLM evaluation"
                                    else " has external call condition (disabled in this context)")
  {
    assert (rules + [r])[..|rules|] == rules;
    UnmetDecides(r, 0, i, ctx, st);
  }

  /** A skipped rule is reported by policy, rule and fault, and marks the scan timed
      out exactly when it, or an earlier one, missed a deadline. */
  lemma ScanDeadline(policyId: string, rules: seq<PolicyRule>, r: PolicyRule, i: nat, ctx: Context, st: Settings)
    requires r.enabled && FaultsAt(r, i, ctx, st) && !ScanRules(policyId, rules, ctx, st).stopped
    ensures ScanRules(policyId, rules + [r], ctx, st).timedOut <==>
              ScanRules(policyId, rules, ctx, st).timedOut
              || EvaluateCondition(r.conditions[i], ctx, st.external, st.lib).deadline
    ensures ScanRules(policyId, rules + [r], ctx, st).errors
         == ScanRules(policyId, rules, ctx, st).errors
            + ["policy " + policyId + " rule " + r.ruleId + ": " + EvaluateCondition(r.conditions[i], ctx, st.external, st.lib).text]
  {
    assert (rules + [r])[..|rules|] == rules;
    FaultCarried(r, i, ctx, st);
  }

  // --- Which policies apply -------------------------------------------------------------------

  predicate Overlaps(xs: seq<string>, ys: seq<string>) {
    exists i :: 0 <= i < |xs| && xs[i] in ys
  }

  /** policyApplies: every non-empty list of the scope names the context. */
  predicate InScope(p: Policy, ctx: Context) {
    p.scope.None? || p.scope.value.applyToAll ||
    var s := p.scope.value;
    && (s.workflowIds == [] || ctx.workflowId in s.workflowIds)
    && (s.phases == [] || ctx.phase in s.phases)
    && (s.roles == [] || Overlaps(s.roles, ctx.userRoles))
    && (s.modelIds == [] || ctx.modelId in s.modelIds)
    && (s.toolNames == [] || Overlaps(s.toolNames, ctx.toolNames))
  }

  /** Each non-empty list of a scope restricts one aspect of the context: the
      workflow, the phase, a role of the user, the model, a tool of the call. */
  lemma InScopeExact(p: Policy, ctx: Context)
    ensures InScope(p, ctx) <==>
              p.scope.Some? && !p.scope.value.applyToAll ==>
                var s := p.scope.value;
                && (s.workflowIds != [] ==> exists i :: 0 <= i < |s.workflowIds| && s.workflowIds[i] == ctx.workflowId)
                && (s.phases != [] ==> exists i :: 0 <= i < |s.phases| && s.phases[i] == ctx.phase)
                && (s.roles != [] ==> exists i, k :: 0 <= i < |s.roles| && 0 <= k < |ctx.userRoles| && s.roles[i] == ctx.userRoles[k])
                && (s.modelIds != [] ==> exists i :: 0 <= i < |s.modelIds| && s.modelIds[i] == ctx.modelId)
                && (s.toolNames != [] ==> exists i, k :: 0 <= i < |s.toolNames| && 0 <= k < |ctx.toolNames| && s.toolNames[i] == ctx.toolNames[k])
  {
  }

  /** Active and in scope. */
  predicate Applies(p: Policy, ctx: Context) {
    p.active && InScope(p, ctx)
  }

  // --- The policy loop ------------------------------------------------------------------------

  datatype Tally = Tally(
    action: EvalAction,
    escalationReason: string,
    matchedPolicy: Option<string>,
    matched: seq<string>,
    actions: seq<PolicyAction>,
    errors: seq<string>,
    timedOut: bool,
    stopped: bool)

  const NoTally := Tally(EvalAllow, "", None, [], [], [], false, false)

  function Credited(t: Tally, p: Policy): Option<string> {
    if t.matchedPolicy.None? then Some(p.policyId) else t.matchedPolicy
  }

  /** The precedence switch over one policy's verdict. */
  function TakeVerdictOf(t: Tally, p: Policy, s: Scan, stopOnDeny: bool): Tally {
    match s.action
    case EvalDeny => t.(action := EvalDeny, matchedPolicy := Some(p.policyId), stopped := stopOnDeny)
    case EvalEscalate =>
      if t.action != EvalDeny
      then t.(action := EvalEscalate, escalationReason := s.escalationReason, matchedPolicy := Credited(t, p)) else t
    case EvalRequireApproval =>
      if t.action != EvalDeny && t.action != EvalEscalate
      then t.(action := EvalRequireApproval, matchedPolicy := Credited(t, p)) else t
    case EvalWarn =>
      if t.action == EvalAllow then t.(action := EvalWarn, matchedPolicy := Credited(t, p)) else t
    case _ => t
  }

  function TakePolicy(t: Tally, p: Policy, ctx: Context, st: Settings, stopOnDeny: bool): Tally {
    if !Applies(p, ctx) then t
    else
      var s := EvaluatePolicy(p, ctx, st);
      var gathered := t.(errors := t.errors + s.errors, timedOut := t.timedOut || s.timedOut,
                         matched := t.matched + s.matched, actions := t.actions + s.actions);
      TakeVerdictOf(gathered, p, s, stopOnDeny)
  }

  function TallyAll(ps: seq<Policy>, ctx: Context, st: Settings, stopOnDeny: bool): Tally {
    if ps == [] then NoTally
    else
      var t := TallyAll(ps[..|ps| - 1], ctx, st, stopOnDeny);
      if t.stopped then t else TakePolicy(t, ps[|ps| - 1], ctx, st, stopOnDeny)
  }

  lemma {:induction false} StoppedTallyStays(ps: seq<Policy>, ctx: Context, st: Settings, stopOnDeny: bool, i: nat)
    requires i <= |ps| && TallyAll(ps[..i], ctx, st, stopOnDeny).stopped
    ensures TallyAll(ps, ctx, st, stopOnDeny) == TallyAll(ps[..i], ctx, st, stopOnDeny)
  {
    if i == |ps| {
      assert ps[..i] == ps;
    } else {
      var init := ps[..|ps| - 1];
      assert init[..i] == ps[..i];
      StoppedTallyStays(init, ctx, st, stopOnDeny, i);
    }
  }

  // --- The meaning of a policy set ------------------------------------------------------------

  /** allow < warn < require_approval < escalate < deny. */
  function EvalRank(a: EvalAction): nat {
    match a
    case EvalWarn => 1
    case EvalRequireApproval => 2
    case EvalEscalate => 3
    case EvalDeny => 4
    case _ => 0
  }

  /** a is the strictest verdict of the policies that apply. */
  ghost predicate IsStrictest(a: EvalAction, ps: seq<Policy>, ctx: Context, st: Settings) {
    && (forall p :: p in ps && Applies(p, ctx) ==> EvalRank(EvaluatePolicy(p, ctx, st).action) <= EvalRank(a))
    && (a == EvalAllow || exists p :: p in ps && Applies(p, ctx) && EvaluatePolicy(p, ctx, st).action == a)
  }

  lemma {:induction false} ScanVerdictKnown(policyId: string, rules: seq<PolicyRule>, ctx: Context, st: Settings)
    ensures ScanRules(policyId, rules, ctx, st).action != EvalUnknown
  {
    if rules != [] {
      ScanVerdictKnown(policyId, rules[..|rules| - 1], ctx, st);
      var s := ScanRules(policyId, rules[..|rules| - 1], ctx, st);
      RuleActionsKnown(s.action, rules[|rules| - 1].actions);
    }
  }

  lemma {:induction false} RuleActionsKnown(a: EvalAction, actions: seq<PolicyAction>)
    requires a != EvalUnknown
    ensures TakeRuleActions(a, actions).0 != EvalUnknown
    decreases |actions|
  {
    if actions != [] {
      RuleActionsKnown(TakeRuleAction(a, actions[0].kind), actions[1..]);
    }
  }

  lemma TakePolicyRanks(t: Tally, p: Policy, ctx: Context, st: Settings, stopOnDeny: bool)
    requires Applies(p, ctx) && t.action != EvalUnknown
    ensures var a := EvaluatePolicy(p, ctx, st).action;
            TakePolicy(t, p, ctx, st, stopOnDeny).action == (if EvalRank(a) > EvalRank(t.action) then a else t.action)
    ensures TakePolicy(t, p, ctx, st, stopOnDeny).stopped ==>
              t.stopped || TakePolicy(t, p, ctx, st, stopOnDeny).action == EvalDeny
    ensures TakePolicy(t, p, ctx, st, stopOnDeny).action != EvalUnknown
  {
  }

  /** Stopping at a deny costs nothing: the loop's action is the strictest verdict
      over every policy that applies, reached or not. */
  lemma {:induction false} TallyIsStrictest(ps: seq<Policy>, ctx: Context, st: Settings, stopOnDeny: bool)
    ensures IsStrictest(TallyAll(ps, ctx, st, stopOnDeny).action, ps, ctx, st)
    ensures TallyAll(ps, ctx, st, stopOnDeny).stopped ==> TallyAll(ps, ctx, st, stopOnDeny).action == EvalDeny
    ensures TallyAll(ps, ctx, st, stopOnDeny).action != EvalUnknown
  {
    if ps != [] {
      var init, p := ps[..|ps| - 1], ps[|ps| - 1];
      TallyIsStrictest(init, ctx, st, stopOnDeny);
      var t := TallyAll(init, ctx, st, stopOnDeny);
      assert ps == init + [p];
      if !t.stopped && Applies(p, ctx) {
        TakePolicyRanks(t, p, ctx, st, stopOnDeny);
      }
    }
  }

  /** A policy's verdict taken into the tally: a deny always takes over and is
      credited, an escalation takes over unless denied, and any other verdict only if
      it is stricter; the first policy to change the verdict keeps the credit. */
  ghost predicate TakesOver(t: Tally, u: Tally, p: Policy, a: EvalAction, reason: string, stop: bool) {
    var first := if t.matchedPolicy.Some? then t.matchedPolicy else Some(p.policyId);
    if a == EvalDeny then u == t.(action := EvalDeny, matchedPolicy := Some(p.policyId), stopped := stop)
    else if a == EvalEscalate && t.action != EvalDeny then
      u == t.(action := EvalEscalate, matchedPolicy := first, escalationReason := reason)
    else if EvalRank(a) > EvalRank(t.action) then u == t.(action := a, matchedPolicy := first)
    else u == t
  }

  lemma TakeVerdictExact(t: Tally, p: Policy, s: Scan, stop: bool)
    requires t.action != EvalUnknown && (t.action != EvalAllow ==> t.matchedPolicy.Some?)
    ensures TakesOver(t, TakeVerdictOf(t, p, s, stop), p, s.action, s.escalationReason, stop)
  {
  }

  /** The tally with one policy's findings added. */
  function Gathered(t: Tally, s: Scan): Tally {
    t.(errors := t.errors + s.errors, timedOut := t.timedOut || s.timedOut,
       matched := t.matched + s.matched, actions := t.actions + s.actions)
  }

  lemma TakePolicyExact(t: Tally, p: Policy, ctx: Context, st: Settings, stop: bool)
    requires t.action != EvalUnknown && (t.action != EvalAllow ==> t.matchedPolicy.Some?)
    requires p.active && InScope(p, ctx)
    ensures var s := ScanRules(p.policyId, p.rules, ctx, st);
            TakesOver(Gathered(t, s), TakePolicy(t, p, ctx, st, stop), p, s.action, s.escalationReason, stop)
  {
    TakeVerdictExact(Gathered(t, ScanRules(p.policyId, p.rules, ctx, st)), p, ScanRules(p.policyId, p.rules, ctx, st), stop);
  }

  /** A verdict other than allow has a policy to its credit. */
  lemma {:induction false} VerdictIsCredited(ps: seq<Policy>, ctx: Context, st: Settings, stop: bool)
    ensures TallyAll(ps, ctx, st, stop).action != EvalUnknown
    ensures TallyAll(ps, ctx, st, stop).action != EvalAllow ==> TallyAll(ps, ctx, st, stop).matchedPolicy.Some?
  {
    if ps != [] {
      var init, p := ps[..|ps| - 1], ps[|ps| - 1];
      VerdictIsCredited(init, ctx, st, stop);
      if Applies(p, ctx) {
        TakePolicyExact(TallyAll(init, ctx, st, stop), p, ctx, st, stop);
        ScanVerdictKnown(p.policyId, p.rules, ctx, st);
      }
    }
  }

  /** How one more policy extends the tally: one that does not apply, and anything
      after a stop, changes nothing; otherwise its findings are gathered and its
      verdict taken over. */
  lemma TallyStep(ps: seq<Policy>, p: Policy, ctx: Context, st: Settings, stop: bool)
    ensures var t, u := TallyAll(ps, ctx, st, stop), TallyAll(ps + [p], ctx, st, stop);
            if t.stopped || !(p.active && InScope(p, ctx)) then u == t
            else
              var s := ScanRules(p.policyId, p.rules, ctx, st);
              TakesOver(Gathered(t, s), u, p, s.action, s.escalationReason, stop)
  {
    assert (ps + [p])[..|ps|] == ps;
    VerdictIsCredited(ps, ctx, st, stop);
    if Applies(p, ctx) {
      TakePolicyExact(TallyAll(ps, ctx, st, stop), p, ctx, st, stop);
    }
  }

  /** The credited policy: none exactly when the verdict is allow, and otherwise an
      applicable policy that did not itself allow; for a deny, one that denied. */
  lemma {:induction false} CreditExact(ps: seq<Policy>, ctx: Context, st: Settings, stop: bool)
    ensures var t := TallyAll(ps, ctx, st, stop);
            && (t.matchedPolicy.None? <==> t.action == EvalAllow)
            && (t.matchedPolicy.Some? ==>
                  exists p :: p in ps && Applies(p, ctx) && p.policyId == t.matchedPolicy.value
                    && EvaluatePolicy(p, ctx, st).action != EvalAllow && (t.action == EvalDeny ==> EvaluatePolicy(p, ctx, st).action == EvalDeny))
  {
    if ps != [] {
      var init, p := ps[..|ps| - 1], ps[|ps| - 1];
      CreditExact(init, ctx, st, stop);
      TallyStep(init, p, ctx, st, stop);
      TallyIsStrictest(init, ctx, st, stop);
      ScanVerdictKnown(p.policyId, p.rules, ctx, st);
      assert init + [p] == ps;
    }
  }

  lemma StrictestUnique(a: EvalAction, b: EvalAction, ps: seq<Policy>, qs: seq<Policy>, ctx: Context, st: Settings)
    requires IsStrictest(a, ps, ctx, st) && IsStrictest(b, qs, ctx, st)
    requires forall p :: p in ps <==> p in qs
    ensures a == b
  {
    assert EvalRank(a) <= EvalRank(b);
    assert EvalRank(b) <= EvalRank(a);
    assert a != EvalUnknown && b != EvalUnknown by {
      forall p: Policy
        ensures EvaluatePolicy(p, ctx, st).action != EvalUnknown
      {
        ScanVerdictKnown(p.policyId, p.rules, ctx, st);
      }
    }
  }

  /** Neither stopOnDeny nor the order of the policies can change the action. */
  lemma OrderAndStopIrrelevant(ps: seq<Policy>, qs: seq<Policy>, ctx: Context, st: Settings, stop: bool, stop': bool)
    requires multiset(ps) == multiset(qs)
    ensures TallyAll(ps, ctx, st, stop).action == TallyAll(qs, ctx, st, stop').action
  {
    TallyIsStrictest(ps, ctx, st, stop);
    TallyIsStrictest(qs, ctx, st, stop');
    assert forall p :: p in ps <==> p in multiset(ps);
    assert forall p :: p in qs <==> p in multiset(qs);
    StrictestUnique(TallyAll(ps, ctx, st, stop).action, TallyAll(qs, ctx, st, stop').action, ps, qs, ctx, st);
  }

  /** A larger policy set is never more lenient. */
  lemma AddingNeverLowers(ps: seq<Policy>, more: seq<Policy>, ctx: Context, st: Settings, stop: bool)
    requires forall p :: p in ps ==> p in more
    ensures EvalRank(TallyAll(ps, ctx, st, stop).action) <= EvalRank(TallyAll(more, ctx, st, stop).action)
  {
    TallyIsStrictest(ps, ctx, st, stop);
    TallyIsStrictest(more, ctx, st, stop);
  }

  // --- The verdict of one policy --------------------------------------------------------------

  function KindVerdict(k: PolicyActionType): EvalAction {
    match k
    case DenyAction => EvalDeny
    case WarnAction => EvalWarn
    case RequireApprovalAction => EvalRequireApproval
    case OtherAction => EvalAllow
  }

  /** The actions that run: up to and with the first terminal one. */
  function Executed(actions: seq<PolicyAction>): seq<PolicyAction> {
    if actions == [] then [] else [actions[0]] + if actions[0].terminal then [] else Executed(actions[1..])
  }

  /** a is the strictest of `start` and the verdicts of the actions. */
  ghost predicate IsStrictestAction(a: EvalAction, start: EvalAction, actions: seq<PolicyAction>) {
    && EvalRank(start) <= EvalRank(a)
    && (forall x :: x in actions ==> EvalRank(KindVerdict(x.kind)) <= EvalRank(a))
    && (a == start || exists x :: x in actions && KindVerdict(x.kind) == a)
  }

  lemma {:induction false} RuleActionsStrictest(a: EvalAction, actions: seq<PolicyAction>)
    requires a != EvalEscalate && a != EvalUnknown
    ensures IsStrictestAction(TakeRuleActions(a, actions).0, a, Executed(actions))
    ensures TakeRuleActions(a, actions).0 != EvalEscalate && TakeRuleActions(a, actions).0 != EvalUnknown
    decreases |actions|
  {
    if actions != [] && !actions[0].terminal {
      RuleActionsStrictest(TakeRuleAction(a, actions[0].kind), actions[1..]);
    }
  }

  lemma StrictestActionJoins(a: EvalAction, b: EvalAction, xs: seq<PolicyAction>, ys: seq<PolicyAction>)
    requires IsStrictestAction(a, EvalAllow, xs) && IsStrictestAction(b, a, ys)
    ensures IsStrictestAction(b, EvalAllow, xs + ys)
  {
  }

  /** The actions the scan of these rules executes. */
  ghost function Fired(policyId: string, rules: seq<PolicyRule>, ctx: Context, st: Settings): seq<PolicyAction> {
    if rules == [] then []
    else
      var init, rule := rules[..|rules| - 1], rules[|rules| - 1];
      Fired(policyId, init, ctx, st)
      + if !ScanRules(policyId, init, ctx, st).stopped && RuleFires(rule, ctx, st)
        then Executed(rule.actions) else []
  }

  /** The scan reaches a rule that must be escalated. */
  ghost predicate ReachesEscalation(policyId: string, rules: seq<PolicyRule>, ctx: Context, st: Settings) {
    exists i :: 0 <= i < |rules| && EscalatesAt(policyId, rules, i, ctx, st)
  }

  ghost predicate EscalatesAt(policyId: string, rules: seq<PolicyRule>, i: nat, ctx: Context, st: Settings)
    requires i < |rules|
  {
    !ScanRules(policyId, rules[..i], ctx, st).stopped && RuleDefers(rules[i], ctx, st)
  }

  lemma EscalationStep(policyId: string, rules: seq<PolicyRule>, ctx: Context, st: Settings)
    requires rules != []
    ensures ReachesEscalation(policyId, rules, ctx, st)
       <==> ReachesEscalation(policyId, rules[..|rules| - 1], ctx, st) || EscalatesAt(policyId, rules, |rules| - 1, ctx, st)
  {
    var init := rules[..|rules| - 1];
    forall i | 0 <= i < |init|
      ensures EscalatesAt(policyId, rules, i, ctx, st) == EscalatesAt(policyId, init, i, ctx, st)
    {
      assert init[..i] == rules[..i];
    }
  }

  /** One policy escalates exactly when its scan reaches a rule to escalate,
      whatever fired before; otherwise its verdict is the strictest fired. */
  lemma {:induction false} PolicyVerdictExact(policyId: string, rules: seq<PolicyRule>, ctx: Context, st: Settings)
    ensures ScanRules(policyId, rules, ctx, st).action == EvalEscalate <==> ReachesEscalation(policyId, rules, ctx, st)
    ensures ScanRules(policyId, rules, ctx, st).action == EvalEscalate ==> ScanRules(policyId, rules, ctx, st).stopped
    ensures ScanRules(policyId, rules, ctx, st).action != EvalEscalate ==>
              IsStrictestAction(ScanRules(policyId, rules, ctx, st).action, EvalAllow, Fired(policyId, rules, ctx, st))
  {
    if rules != [] {
      var init, rule := rules[..|rules| - 1], rules[|rules| - 1];
      PolicyVerdictExact(policyId, init, ctx, st);
      EscalationStep(policyId, rules, ctx, st);
      ScanVerdictKnown(policyId, init, ctx, st);
      RuleExact(rule, ctx, st);
      var s := ScanRules(policyId, init, ctx, st);
      if s.stopped {
        assert Fired(policyId, rules, ctx, st) == Fired(policyId, init, ctx, st);
      } else if RuleFires(rule, ctx, st) {
        RuleActionsStrictest(s.action, rule.actions);
        StrictestActionJoins(s.action, TakeRuleActions(s.action, rule.actions).0, Fired(policyId, init, ctx, st), Executed(rule.actions));
      } else {
        assert Fired(policyId, rules, ctx, st) == Fired(policyId, init, ctx, st);
      }
    }
  }

  /** Inside one policy a deny is not final: a later semantic rule escalates. */
  lemma LaterEscalationReplacesDeny(ctx: Context, st: Settings)
    ensures var deny := PolicyRule("r1", true, [], [PolicyAction(DenyAction, false)]);
            var ask := PolicyRule("r2", true, [RootUser.(kind := Semantic)], [PolicyAction(DenyAction, false)]);
            && ScanRules("p", [deny], ctx, st).action == EvalDeny
            && ScanRules("p", [deny, ask], ctx, st).action == EvalEscalate
  {
    var deny := PolicyRule("r1", true, [], [PolicyAction(DenyAction, false)]);
    var ask := PolicyRule("r2", true, [RootUser.(kind := Semantic)], [PolicyAction(DenyAction, false)]);
    assert [deny][..0] == [] && [deny, ask][..1] == [deny];
    assert EvaluateRule(deny, ctx, st) == Match;
    assert TakeRuleActions(EvalAllow, deny.actions) == (EvalDeny, false);
    assert ScanRules("p", [deny], ctx, st).action == EvalDeny;
  }

  // --- Skipped rules ----------------------------------------------------------------------------

  /** The scan gets to the i-th rule, and that rule faults and is skipped. */
  ghost predicate SkippedAt(policyId: string, rules: seq<PolicyRule>, i: nat, ctx: Context, st: Settings)
    requires i < |rules|
  {
    !ScanRules(policyId, rules[..i], ctx, st).stopped && Faults(rules[i], ctx, st)
  }

  lemma ScanRuleErrors(policyId: string, rule: PolicyRule, ctx: Context, st: Settings, s: Scan)
    ensures ScanRule(policyId, rule, ctx, st, s).errors == [] <==> s.errors == [] && !Faults(rule, ctx, st)
  {
    RuleExact(rule, ctx, st);
  }

  lemma SkippedInPrefix(policyId: string, rules: seq<PolicyRule>, ctx: Context, st: Settings, i: nat)
    requires i < |rules| - 1
    ensures SkippedAt(policyId, rules, i, ctx, st) == SkippedAt(policyId, rules[..|rules| - 1], i, ctx, st)
  {
    assert rules[..|rules| - 1][..i] == rules[..i];
  }

  ghost predicate NoneSkipped(policyId: string, rules: seq<PolicyRule>, ctx: Context, st: Settings) {
    forall i :: 0 <= i < |rules| ==> !SkippedAt(policyId, rules, i, ctx, st)
  }

  lemma NoneSkippedStep(policyId: string, rules: seq<PolicyRule>, ctx: Context, st: Settings)
    requires rules != []
    ensures NoneSkipped(policyId, rules, ctx, st)
       <==> NoneSkipped(policyId, rules[..|rules| - 1], ctx, st) && !SkippedAt(policyId, rules, |rules| - 1, ctx, st)
  {
    var init, last := rules[..|rules| - 1], |rules| - 1;
    if NoneSkipped(policyId, rules, ctx, st) {
      forall i | 0 <= i < |init|
        ensures !SkippedAt(policyId, init, i, ctx, st)
      {
        SkippedInPrefix(policyId, rules, ctx, st, i);
      }
    }
    if NoneSkipped(policyId, init, ctx, st) && !SkippedAt(policyId, rules, last, ctx, st) {
      forall i | 0 <= i < |rules|
        ensures !SkippedAt(policyId, rules, i, ctx, st)
      {
        if i < last {
          SkippedInPrefix(policyId, rules, ctx, st, i);
        }
      }
    }
  }

  /** A policy reports an error exactly when its scan skipped a rule. */
  lemma {:induction false} ScanErrorsExact(policyId: string, rules: seq<PolicyRule>, ctx: Context, st: Settings)
    ensures ScanRules(policyId, rules, ctx, st).errors == [] <==> NoneSkipped(policyId, rules, ctx, st)
  {
    if rules != [] {
      var init := rules[..|rules| - 1];
      ScanErrorsExact(policyId, init, ctx, st);
      ScanRuleErrors(policyId, rules[|rules| - 1], ctx, st, ScanRules(policyId, init, ctx, st));
      NoneSkippedStep(policyId, rules, ctx, st);
    }
  }

  /** The policy applies and skipped nothing, or does not apply. */
  ghost predicate Clean(p: Policy, ctx: Context, st: Settings) {
    Applies(p, ctx) ==> EvaluatePolicy(p, ctx, st).errors == []
  }

  lemma TakePolicyErrors(t: Tally, p: Policy, ctx: Context, st: Settings, stopOnDeny: bool)
    ensures TakePolicy(t, p, ctx, st, stopOnDeny).errors == [] <==> t.errors == [] && Clean(p, ctx, st)
  {
  }

  /** The loop reports an error only if a policy skipped a rule, and unless it
      stopped at a deny it reports every one. */
  lemma {:induction false} TallyErrorsExact(ps: seq<Policy>, ctx: Context, st: Settings, stopOnDeny: bool)
    ensures (forall p :: p in ps ==> Clean(p, ctx, st)) ==> TallyAll(ps, ctx, st, stopOnDeny).errors == []
    ensures !TallyAll(ps, ctx, st, stopOnDeny).stopped && TallyAll(ps, ctx, st, stopOnDeny).errors == [] ==>
              forall p :: p in ps ==> Clean(p, ctx, st)
  {
    if ps != [] {
      var init, p := ps[..|ps| - 1], ps[|ps| - 1];
      TallyErrorsExact(init, ctx, st, stopOnDeny);
      TakePolicyErrors(TallyAll(init, ctx, st, stopOnDeny), p, ctx, st, stopOnDeny);
      if TallyAll(init, ctx, st, stopOnDeny).stopped {
        assert TallyAll(ps, ctx, st, stopOnDeny).stopped;
      }
      assert ps == init + [p];
    }
  }

  /** An error-free verdict short of deny: no applicable policy skipped a rule its
      scan reached, and none is stricter than the verdict. */
  lemma CleanVerdictSkipsNothing(ps: seq<Policy>, ctx: Context, st: Settings, stopOnDeny: bool, p: Policy)
    requires TallyAll(ps, ctx, st, stopOnDeny).errors == [] && TallyAll(ps, ctx, st, stopOnDeny).action != EvalDeny
    requires p in ps && Applies(p, ctx)
    ensures NoneSkipped(p.policyId, p.rules, ctx, st)
    ensures EvalRank(EvaluatePolicy(p, ctx, st).action) <= EvalRank(TallyAll(ps, ctx, st, stopOnDeny).action)
  {
    TallyIsStrictest(ps, ctx, st, stopOnDeny);
    TallyErrorsExact(ps, ctx, st, stopOnDeny);
    assert Clean(p, ctx, st);
    ScanErrorsExact(p.policyId, p.rules, ctx, st);
  }

  // --- Validation of policies ---------------------------------------------------------------------

  predicate ValidRule(rule: PolicyRule, lib: Libraries) {
    rule.ruleId != "" && rule.actions != [] && forall i :: 0 <= i < |rule.conditions| ==> ValidCondition(rule.conditions[i], lib)
  }

  predicate ValidPolicy(p: Policy, lib: Libraries) {
    && p.policyId != "" && p.tenantId != "" && p.rules != []
    && forall i :: 0 <= i < |p.rules| ==> ValidRule(p.rules[i], lib)
  }

  /** Every missing part of a policy is noticed. */
  lemma MissingPartsRejected(p: Policy, lib: Libraries)
    requires || p.policyId == "" || p.tenantId == "" || p.rules == []
             || exists i :: 0 <= i < |p.rules| && (p.rules[i].ruleId == "" || p.rules[i].actions == [])
    ensures !ValidPolicy(p, lib)
  {
  }

  /** A condition evaluateRule hands to a server, or one that is predictable. */
  predicate Settled(c: Condition, st: Settings) {
    c.kind == Semantic || (c.kind == ExternalCall && !st.external) || PredictableTree(c)
  }

  predicate SettledPolicy(p: Policy, st: Settings) {
    forall i, k :: 0 <= i < |p.rules| && 0 <= k < |p.rules[i].conditions| ==> Settled(p.rules[i].conditions[k], st)
  }

  lemma {:induction false} ValidRuleNeverFaults(rule: PolicyRule, i: nat, ctx: Context, st: Settings)
    requires i <= |rule.conditions| && ValidRule(rule, st.lib)
    requires forall k :: 0 <= k < |rule.conditions| ==> Settled(rule.conditions[k], st)
    ensures !RuleFrom(rule, i, ctx, st).RuleFault?
    decreases |rule.conditions| - i
  {
    if i < |rule.conditions| {
      var c := rule.conditions[i];
      if PredictableTree(c) {
        ValidationPredicts(c, ctx, st.external, st.lib);
      }
      ValidRuleNeverFaults(rule, i + 1, ctx, st);
    }
  }

  lemma ValidPolicyNeverFaults(p: Policy, ctx: Context, st: Settings)
    requires ValidPolicy(p, st.lib) && SettledPolicy(p, st)
    ensures EvaluatePolicy(p, ctx, st).errors == []
  {
    ScanErrorsExact(p.policyId, p.rules, ctx, st);
    forall i | 0 <= i < |p.rules|
      ensures !Faults(p.rules[i], ctx, st)
    {
      ValidRuleNeverFaults(p.rules[i], 0, ctx, st);
      RuleExact(p.rules[i], ctx, st);
    }
  }

  /** Strict validation pays off: a validated set of predictable conditions skips
      no rule on any request. */
  lemma ValidatedSetNeverSkips(ps: seq<Policy>, ctx: Context, st: Settings, stopOnDeny: bool)
    requires forall p :: p in ps ==> ValidPolicy(p, st.lib) && SettledPolicy(p, st)
    ensures TallyAll(ps, ctx, st, stopOnDeny).errors == []
  {
    forall p | p in ps
      ensures Clean(p, ctx, st)
    {
      ValidPolicyNeverFaults(p, ctx, st);
    }
    TallyErrorsExact(ps, ctx, st, stopOnDeny);
  }

  // --- The evaluator as written ---------------------------------------------------------------------

  /** An outcome of the library's priority sort, which is not stable. */
  ghost predicate IsPrioritySort(given: seq<Policy>, sorted: seq<Policy>) {
    && multiset(sorted) == multiset(given)
    && forall i, j :: 0 <= i < j < |sorted| ==> sorted[i].priority >= sorted[j].priority
  }

  function Summary(policies: nat, matched: nat, lib: Libraries): string {
    if matched == 0 then "No rules matched - action allowed by default"
    else "Evaluated " + lib.formatInt(policies) + " policies, " + lib.formatInt(matched) + " rules matched"
  }

  /** What an evaluator holding ps, strict or not, decides. */
  function Decide(ps: seq<Policy>, strictErr: Option<string>, ctx: Context, st: Settings, stopOnDeny: bool): EvalDecision {
    if strictErr.Some? then EvalDecision(EvalDeny, "strict policy validation failed: " + strictErr.value, "", true, [], false, None)
    else
      var t := TallyAll(ps, ctx, st, stopOnDeny);
      EvalDecision(t.action, Summary(|ps|, |t.matched|, st.lib), t.escalationReason, false, t.errors, t.timedOut, t.matchedPolicy)
  }

  // --- What the decision reports ----------------------------------------------------------------

  /** Some rule of an applicable policy fires or must go to a server. */
  ghost predicate SomethingMatches(rules: seq<PolicyRule>, ctx: Context, st: Settings) {
    exists i :: 0 <= i < |rules| && (RuleFires(rules[i], ctx, st) || RuleDefers(rules[i], ctx, st))
  }

  /** A scan lists a rule exactly when one fires or defers: nothing stops it before. */
  lemma {:induction false} ScanMatchedExact(policyId: string, rules: seq<PolicyRule>, ctx: Context, st: Settings)
    ensures ScanRules(policyId, rules, ctx, st).matched != [] <==> SomethingMatches(rules, ctx, st)
    ensures ScanRules(policyId, rules, ctx, st).action != EvalAllow || ScanRules(policyId, rules, ctx, st).stopped ==>
              ScanRules(policyId, rules, ctx, st).matched != []
  {
    if rules != [] {
      var init, r := rules[..|rules| - 1], rules[|rules| - 1];
      ScanMatchedExact(policyId, init, ctx, st);
      ScanStep(policyId, init, r, ctx, st);
      assert init + [r] == rules;
      assert forall i :: 0 <= i < |init| ==> init[i] == rules[i];
    }
  }

  /** The tally of policies lists a rule exactly when an applicable policy has one. */
  lemma {:induction false} TallyMatchedExact(ps: seq<Policy>, ctx: Context, st: Settings, stop: bool)
    ensures TallyAll(ps, ctx, st, stop).matched != [] <==> exists p :: p in ps && Applies(p, ctx) && SomethingMatches(p.rules, ctx, st)
    ensures TallyAll(ps, ctx, st, stop).stopped ==> TallyAll(ps, ctx, st, stop).matched != []
  {
    if ps != [] {
      var init, p := ps[..|ps| - 1], ps[|ps| - 1];
      TallyMatchedExact(init, ctx, st, stop);
      TallyStep(init, p, ctx, st, stop);
      ScanMatchedExact(p.policyId, p.rules, ctx, st);
      assert init + [p] == ps;
    }
  }

  /** An escalation speaks for a policy that escalated. */
  lemma {:induction false} EscalationSpeaks(ps: seq<Policy>, ctx: Context, st: Settings, stop: bool)
    ensures TallyAll(ps, ctx, st, stop).action == EvalEscalate ==>
              exists p :: p in ps && Applies(p, ctx) && EvaluatePolicy(p, ctx, st).action == EvalEscalate
                && EvaluatePolicy(p, ctx, st).escalationReason == TallyAll(ps, ctx, st, stop).escalationReason
  {
    if ps != [] {
      var init, p := ps[..|ps| - 1], ps[|ps| - 1];
      EscalationSpeaks(init, ctx, st, stop);
      TallyStep(init, p, ctx, st, stop);
      assert init + [p] == ps;
    }
  }

  ghost predicate SomeoneTimedOut(ps: seq<Policy>, ctx: Context, st: Settings) {
    exists p :: p in ps && Applies(p, ctx) && EvaluatePolicy(p, ctx, st).timedOut
  }

  lemma {:induction false} TallyTimeout(ps: seq<Policy>, ctx: Context, st: Settings, stop: bool)
    ensures TallyAll(ps, ctx, st, stop).timedOut ==> SomeoneTimedOut(ps, ctx, st)
    ensures !TallyAll(ps, ctx, st, stop).stopped && SomeoneTimedOut(ps, ctx, st) ==> TallyAll(ps, ctx, st, stop).timedOut
  {
    if ps != [] {
      var init, p := ps[..|ps| - 1], ps[|ps| - 1];
      TallyTimeout(init, ctx, st, stop);
      TallyStep(init, p, ctx, st, stop);
      assert init + [p] == ps;
    }
  }

  /** What an evaluator without a standing strict error reports beside its action:
      that nothing matched, exactly when no rule of an applicable policy fires or
      defers; an escalation in the words of a policy that escalated; a policy to its
      credit exactly for a verdict other than allow; and, short of a deny, a skipped
      rule and a missed deadline exactly when some applicable policy had one. */
  lemma DecisionReports(ps: seq<Policy>, ctx: Context, st: Settings, stop: bool)
    ensures var d := Decide(ps, None, ctx, st, stop);
            && !d.strictFailed
            && (d.reason == "No rules matched - action allowed by default"
                <==> forall p :: p in ps && Applies(p, ctx) ==> !SomethingMatches(p.rules, ctx, st))
            && (d.action == EvalEscalate ==>
                  exists p :: p in ps && Applies(p, ctx) && EvaluatePolicy(p, ctx, st).action == EvalEscalate
                    && EvaluatePolicy(p, ctx, st).escalationReason == d.escalationReason)
            && (d.matchedPolicy.Some? <==> d.action != EvalAllow)
            && (d.action != EvalDeny ==> (d.errors == [] <==> forall p :: p in ps ==> Clean(p, ctx, st)))
            && (d.action != EvalDeny ==> (d.timedOut <==> SomeoneTimedOut(ps, ctx, st)))
  {
    TallyMatchedExact(ps, ctx, st, stop);
    EscalationSpeaks(ps, ctx, st, stop);
    TallyTimeout(ps, ctx, st, stop);
    TallyErrorsExact(ps, ctx, st, stop);
    CreditExact(ps, ctx, st, stop);
    TallyIsStrictest(ps, ctx, st, stop);
    var t := TallyAll(ps, ctx, st, stop);
    SummaryTells(|ps|, |t.matched|, st.lib);
  }

  lemma SummaryTells(policies: nat, matched: nat, lib: Libraries)
    ensures Summary(policies, matched, lib) == "No rules matched - action allowed by default" <==> matched == 0
  {
    if matched != 0 {
      assert Summary(policies, matched, lib)[0] == 'E';
    }
  }

  class Evaluator {
    const settings: Settings
    const stopOnDeny: bool
    const strictPolicies: bool
    var policies: seq<Policy>
    var strictErr: Option<string>

    constructor (st: Settings, stop: bool, strict: bool)
      ensures settings == st && stopOnDeny == stop && strictPolicies == strict
      ensures policies == [] && strictErr == None
    {
      settings := st;
      stopOnDeny := stop;
      strictPolicies := strict;
      policies := [];
      strictErr := None;
    }

    method ValidatePolicySet(ps: seq<Policy>) returns (err: Option<string>)
      ensures err.None? <==> forall p :: p in ps ==> ValidPolicy(p, settings.lib)
    {
      for i := 0 to |ps|
        invariant forall k :: 0 <= k < i ==> ValidPolicy(ps[k], settings.lib)
      {
        if !ValidPolicy(ps[i], settings.lib) {
          assert ps[i] in ps;
          return Some("policy " + ps[i].policyId + " invalid");
        }
      }
      return None;
    }

    /** Installs the set in sorted order; an invalid set arms the fail-closed state
        in strict mode only. */
    method UpdatePoliciesStrict(given: seq<Policy>, sorted: seq<Policy>) returns (err: Option<string>)
      requires IsPrioritySort(given, sorted)
      modifies this`policies, this`strictErr
      ensures policies == sorted
      ensures err.None? <==> forall p :: p in given ==> ValidPolicy(p, settings.lib)
      ensures strictErr == if strictPolicies then err else None
    {
      err := ValidatePolicySet(sorted);
      assert forall p :: p in given <==> p in multiset(given);
      assert forall p :: p in sorted <==> p in multiset(sorted);
      policies := sorted;
      if strictPolicies {
        strictErr := err;
      } else {
        strictErr := None;
      }
    }

    /** A matching rule's inner loop over its actions. */
    method RunActions(start: EvalAction, actions: seq<PolicyAction>) returns (action: EvalAction, stopped: bool)
      ensures (action, stopped) == TakeRuleActions(start, actions)
    {
      action := start;
      stopped := false;
      var i := 0;
      while i < |actions|
        invariant 0 <= i <= |actions|
        invariant TakeRuleActions(start, actions) == TakeRuleActions(action, actions[i..])
      {
        match actions[i].kind {
          case DenyAction =>
            action := EvalDeny;
          case WarnAction =>
            if action == EvalAllow {
              action := EvalWarn;
            }
          case RequireApprovalAction =>
            if action != EvalDeny {
              action := EvalRequireApproval;
            }
          case OtherAction =>
        }
        assert actions[i..][1..] == actions[i + 1..];
        if actions[i].terminal {
          stopped := true;
          return;
        }
        i := i + 1;
      }
    }

    method RunRule(policyId: string, rule: PolicyRule, ctx: Context, before: Scan) returns (s: Scan)
      ensures s == ScanRule(policyId, rule, ctx, settings, before)
    {
      s := before;
      if !rule.enabled {
        return;
      }
      match EvaluateRule(rule, ctx, settings) {
        case RuleFault(text, deadline) =>
          s := s.(errors := s.errors + [RuleError(policyId, rule.ruleId, text)], timedOut := s.timedOut || deadline);
        case Escalates(reason) =>
          s := s.(action := EvalEscalate, escalationReason := reason, matched := s.matched + [rule.ruleId], stopped := true);
        case NoMatch =>
        case Match =>
          var action, stopped := RunActions(s.action, rule.actions);
          s := s.(action := action, matched := s.matched + [rule.ruleId], actions := s.actions + rule.actions, stopped := stopped);
      }
    }

    /** evaluatePolicy: the rule loop with its two early exits. */
    method RunPolicy(p: Policy, ctx: Context) returns (s: Scan)
      ensures s == EvaluatePolicy(p, ctx, settings)
    {
      s := NoScan;
      if !p.active {
        return;
      }
      var i := 0;
      while i < |p.rules|
        invariant 0 <= i <= |p.rules|
        invariant s == ScanRules(p.policyId, p.rules[..i], ctx, settings) && !s.stopped
      {
        s := RunRule(p.policyId, p.rules[i], ctx, s);
        assert p.rules[..i + 1][..i] == p.rules[..i];
        if s.stopped {
          StoppedStays(p.policyId, p.rules, ctx, settings, i + 1);
          return;
        }
        i := i + 1;
      }
      assert p.rules[..|p.rules|] == p.rules;
    }

    /** The policy loop: precedence, and the stop at a deny. */
    method RunPolicies(ctx: Context) returns (t: Tally)
      ensures t == TallyAll(policies, ctx, settings, stopOnDeny)
    {
      t := NoTally;
      var i := 0;
      while i < |policies|
        invariant 0 <= i <= |policies|
        invariant t == TallyAll(policies[..i], ctx, settings, stopOnDeny) && !t.stopped
      {
        var p := policies[i];
        assert policies[..i + 1][..i] == policies[..i];
        if p.active && InScope(p, ctx) {
          var s := RunPolicy(p, ctx);
          t := t.(errors := t.errors + s.errors, timedOut := t.timedOut || s.timedOut,
                  matched := t.matched + s.matched, actions := t.actions + s.actions);
          t := TakeVerdictOf(t, p, s, stopOnDeny);
          if t.stopped {
            StoppedTallyStays(policies, ctx, settings, stopOnDeny, i + 1);
            return;
          }
        }
        i := i + 1;
      }
      assert policies[..|policies|] == policies;
    }

    /** The decision, and in it the strictest verdict of the policies that apply. */
    method Evaluate(ctx: Context) returns (d: EvalDecision)
      ensures d == Decide(policies, strictErr, ctx, settings, stopOnDeny)
      ensures strictErr.None? ==> IsStrictest(d.action, policies, ctx, settings)
      ensures strictErr.Some? ==> d.action == EvalDeny && d.strictFailed
    {
      if strictErr.Some? {
        return EvalDecision(EvalDeny, "strict policy validation failed: " + strictErr.value, "", true, [], false, None);
      }
      var t := RunPolicies(ctx);
      TallyIsStrictest(policies, ctx, settings, stopOnDeny);
      return EvalDecision(t.action, Summary(|policies|, |t.matched|, settings.lib), t.escalationReason, false,
                          t.errors, t.timedOut, t.matchedPolicy);
    }
  }
}
