/** The decision pipeline (governance/pipeline.go): four stages mutate one
    decision, then a deferred block updates trust, emits audit and applies
    dry-run.  Collaborators are arbitrary deterministic functions that may return
    a value, an error or a panic. */
module Pipeline {
  import opened Text
  import opened Verdicts
  import opened Policy

  // --- Collaborators ---------------------------------------------------------------

  datatype Category =
    | Unavailable
    | TimedOut
    | CanceledCheck
    | PanicRecovered
    | InvalidResult
    | MissingConfig
    | MissingIdentity
    | StaleSnapshot

  /** The result of calling a collaborator; an error carries the category the
      pipeline classifies it as. */
  datatype Call<+T> = Value(value: T) | Error(category: Category, text: string) | Panic

  function FaultOf<T>(c: Call<T>): Category
    requires !c.Value?
  {
    if c.Panic? then PanicRecovered else c.category
  }

  datatype InterceptResult = InterceptResult(allowed: bool, action: Action, reason: string)

  datatype EvalAction = EvalAllow | EvalWarn | EvalRequireApproval | EvalEscalate | EvalDeny | EvalUnknown

  datatype EvalDecision = EvalDecision(
    action: EvalAction,
    reason: string,
    escalationReason: string,
    strictFailed: bool,
    errors: seq<string>,
    timedOut: bool,
    matchedPolicy: Option<string>)

  datatype Resolution = Resolution(action: Action, reason: string, mode: DecisionMode)

  datatype TrustUpdate = TrustUpdate(before: TrustState, after: TrustState, score: real, outcome: string, transition: bool)

  /** A trust checker; `record` is there when it is also a trust backend. */
  datatype TrustChecker = TrustChecker(
    check: string -> Call<TrustState>,
    record: Option<(Request, Decision) -> Call<TrustUpdate>>)

  // --- The decision ------------------------------------------------------------------

  datatype Stage = TrustStage | TrustUpdateStage | InterceptorStage | PolicyEvalStage | IdentityStage | ConfigStage

  /** The fixed vocabulary of check-failure causes. */
  datatype Cause =
    | ConfigInvalid(text: string)
    | IdentityRequired
    | TrustCheckFailed
    | TrustUpdateFailed
    | InterceptorError
    | InterceptorInvalid
    | EvaluationFailed
    | EvaluationEmpty
    | EvaluationUnknownAction
    | StrictValidationFailed
    | RuleSkipped

  datatype CheckFailure = CheckFailure(stage: Stage, category: Category, cause: Cause)

  /** Why a decision came out as it did; Render gives the text on the record. */
  datatype Reason =
    | Plain(text: string)
    | DeniedByPolicy(rule: string)
    | Indeterminate(failure: CheckFailure)
    | AgentBlocked(agent: string, state: TrustState)
    | AgentDegraded(agent: string)
    | EscalationFault(text: string)
    | AwaitSkipped(text: string)
    | DryRunWould(block: bool, original: Reason)

  /** The policy a verdict is attributed to; empty texts when none. */
  datatype Attribution = Attribution(policyId: string, matchedRule: string, policyFile: string)

  const Unattributed := Attribution("", "", "")

  /** The verdict, its reason, mode and attribution: what a stricter verdict
      replaces and restoreVerdict puts back. */
  datatype Ruling = Ruling(action: Action, reason: Reason, mode: DecisionMode, credit: Attribution)

  datatype Decision = Decision(
    ruling: Ruling,
    matchedRules: seq<string>,
    trustScore: real,
    trustState: TrustState,
    dryRun: bool,
    check: Option<CheckFailure>,
    trustCountable: bool)

  const Initial := Decision(Ruling(Allow, Plain(""), Deterministic, Unattributed), [], 1.0, Trusted, false, None, false)

  predicate Allowed(d: Decision) {
    Permits(d.ruling.action)
  }

  /** An audit event; it identifies the request it is about. */
  datatype AuditEvent = AuditEvent(
    request: Request,
    transition: bool,
    dryRun: bool,
    ruling: Ruling,
    trustScore: real,
    trustState: TrustState,
    check: Option<CheckFailure>,
    matchedRules: seq<string>)

  // --- Configuration -----------------------------------------------------------------

  datatype NonEnforcing = NonEnforcing(transport: string, reason: string)

  datatype Config = Config(
    rules: seq<Rule>,
    requireAgentId: bool,
    nonEnforcing: seq<NonEnforcing>,
    dryRun: bool,
    requireAudit: bool)

  predicate IsRuleAction(a: Action) {
    a == Allow || a == Deny || a == Warn || a == Audit || a == Escalate || a == RequireApproval
  }

  predicate ValidConfig(c: Config) {
    && (forall i :: 0 <= i < |c.nonEnforcing| ==>
          TrimSpace(c.nonEnforcing[i].transport) != "" && TrimSpace(c.nonEnforcing[i].reason) != "")
    && (forall i :: 0 <= i < |c.rules| ==> IsRuleAction(c.rules[i].action))
  }

  /** PipelineConfig.Validate: the first configuration error, if any. */
  method Validate(c: Config) returns (err: Option<string>)
    ensures err.None? <==> ValidConfig(c)
  {
    for i := 0 to |c.nonEnforcing|
      invariant forall k :: 0 <= k < i ==>
                  TrimSpace(c.nonEnforcing[k].transport) != "" && TrimSpace(c.nonEnforcing[k].reason) != ""
    {
      if TrimSpace(c.nonEnforcing[i].transport) == "" {
        return Some("non-enforcing entry names no transport");
      }
      if TrimSpace(c.nonEnforcing[i].reason) == "" {
        return Some("non-enforcing entry carries no reason");
      }
    }
    for i := 0 to |c.rules|
      invariant forall k :: 0 <= k < i ==> IsRuleAction(c.rules[k].action)
    {
      if !IsRuleAction(c.rules[i].action) {
        return Some("static rule action is not a supported rule action");
      }
    }
    return None;
  }

  /** A built pipeline: its configuration and collaborators. */
  datatype Setup = Setup(
    rules: seq<Rule>,
    env: Engines,
    requireAgentId: bool,
    nonEnforcing: set<string>,
    dryRun: bool,
    configErr: Option<string>,
    trust: Option<TrustChecker>,
    intercept: Request -> Call<Option<InterceptResult>>,
    evaluate: (Request, real, TrustState) -> Call<Option<EvalDecision>>,
    escalate: Option<(Request, string) -> Call<Option<Resolution>>>)

  /** NewPipeline: the configuration error is recorded, never dropped. */
  method NewSetup(c: Config, env: Engines, hasAuditor: bool, trust: Option<TrustChecker>,
                  intercept: Request -> Call<Option<InterceptResult>>,
                  evaluate: (Request, real, TrustState) -> Call<Option<EvalDecision>>,
                  escalate: Option<(Request, string) -> Call<Option<Resolution>>>)
    returns (p: Setup)
    ensures p.configErr.None? <==> ValidConfig(c) && (c.requireAudit ==> hasAuditor)
    ensures p.rules == c.rules && p.requireAgentId == c.requireAgentId && p.dryRun == c.dryRun
    ensures forall t :: t in p.nonEnforcing <==> exists i :: 0 <= i < |c.nonEnforcing| && c.nonEnforcing[i].transport == t
  {
    var err := Validate(c);
    if err.None? && c.requireAudit && !hasAuditor {
      err := Some("RequireAudit is set but no AuditPublisher was provided");
    }
    var named: set<string> := {};
    for i := 0 to |c.nonEnforcing|
      invariant forall t :: t in named <==> exists k :: 0 <= k < i && c.nonEnforcing[k].transport == t
    {
      named := named + {c.nonEnforcing[i].transport};
    }
    p := Setup(c.rules, env, c.requireAgentId, named, c.dryRun, err, trust, intercept, evaluate, escalate);
  }

  /** A pipeline with an evaluator that holds no policies, no interceptor, no
      handler, and default settings. */
  function BareSetup(rules: seq<Rule>, env: Engines, trust: Option<TrustChecker>): Setup {
    Setup(rules, env, false, {}, false, None, trust,
          (req: Request) => Value(None),
          (req: Request, score: real, posture: TrustState) =>
            Value(Some(EvalDecision(EvalAllow, "No rules matched - action allowed by default", "", false, [], false, None))),
          None)
  }

  predicate Enforces(p: Setup, req: Request) {
    req.transport !in p.nonEnforcing
  }

  // --- Helpers that rewrite the decision -----------------------------------------------

  function StageName(s: Stage): string {
    match s
    case TrustStage => "trust"
    case TrustUpdateStage => "trust_update"
    case InterceptorStage => "interceptor"
    case PolicyEvalStage => "policy_eval"
    case IdentityStage => "identity"
    case ConfigStage => "config"
  }

  function CategoryName(c: Category): string {
    match c
    case Unavailable => "unavailable"
    case TimedOut => "timeout"
    case CanceledCheck => "canceled"
    case PanicRecovered => "panic"
    case InvalidResult => "invalid_result"
    case MissingConfig => "missing_config"
    case MissingIdentity => "missing_identity"
    case StaleSnapshot => "stale_snapshot"
  }

  function CauseText(c: Cause): string {
    match c
    case ConfigInvalid(text) => text
    case IdentityRequired => "agent identity is required for protected adapter"
    case TrustCheckFailed => "trust check failed"
    case TrustUpdateFailed => "trust update failed"
    case InterceptorError => "interceptor error"
    case InterceptorInvalid => "interceptor returned invalid blocking action"
    case EvaluationFailed => "policy evaluation failed"
    case EvaluationEmpty => "policy evaluation returned no decision"
    case EvaluationUnknownAction => "policy evaluation returned unknown action"
    case StrictValidationFailed => "policy set failed strict validation"
    case RuleSkipped => "policy or rule evaluation faulted and was skipped"
  }

  function BlockedText(agent: string, s: TrustState): string {
    "agent " + agent + " is " + TrustStateName(s)
  }

  function Render(r: Reason): string {
    match r
    case Plain(text) => text
    case DeniedByPolicy(rule) => "denied by policy \"" + rule + "\""
    case Indeterminate(cf) =>
      "check indeterminate (" + StageName(cf.stage) + "/" + CategoryName(cf.category) + "): " + CauseText(cf.cause)
    case AgentBlocked(agent, state) => BlockedText(agent, state)
    case AgentDegraded(agent) => "agent " + agent + " is degraded"
    case EscalationFault(text) => "escalation fault (fail-closed): " + text
    case AwaitSkipped(text) => text + " (dry-run: escalation await skipped)"
    case DryRunWould(block, original) =>
      (if block then "DRY-RUN would block: " else "DRY-RUN would deny: ")
      + (if Render(original) == "" then "(no reason)" else Render(original))
  }

  function ClearAttribution(v: Ruling): Ruling {
    if v.credit.matchedRule == "" then v else v.(credit := Unattributed, mode := Deterministic)
  }

  /** The ruling a failed check leaves on an enforcing transport. */
  function IndeterminateRuling(v: Ruling, cf: CheckFailure): Ruling {
    var cleared := if v.action == Warn then ClearAttribution(v) else v;
    cleared.(action := CheckIndeterminate, reason := Indeterminate(cf))
  }

  predicate VoidsPosture(stage: Stage) {
    stage == TrustStage || stage == IdentityStage || stage == ConfigStage
  }

  function MarkEnforced(d: Decision, cf: CheckFailure, enforcing: bool): Decision {
    var noted := if d.check.None? then d.(check := Some(cf)) else d;
    if !Allowed(d) then noted
    else
      var postured := if VoidsPosture(cf.stage) then noted.(trustScore := 0.0, trustState := Unknown) else noted;
      if enforcing then postured.(ruling := IndeterminateRuling(d.ruling, cf)) else postured
  }

  function Mark(p: Setup, req: Request, d: Decision, stage: Stage, category: Category, cause: Cause): Decision {
    MarkEnforced(d, CheckFailure(stage, category, cause), Enforces(p, req))
  }

  predicate IsStricter(v: Ruling, a: Action) {
    VerdictRank(a) > VerdictRank(v.action)
  }

  function AdoptStricter(v: Ruling, a: Action, reason: string): Ruling {
    if IsStricter(v, a) then ClearAttribution(v.(action := a, reason := Plain(reason))) else v
  }

  function FaultDeny(v: Ruling, what: string): Ruling {
    v.(action := Deny, reason := EscalationFault(what), mode := Deterministic)
  }

  /** resolveEscalation for a handler that returned. */
  function Resolve(v: Ruling, c: Call<Option<Resolution>>): Ruling
    requires !c.Panic?
  {
    if c.Error? then FaultDeny(v, c.text)
    else if c.value.None? then FaultDeny(v, "handler returned no decision")
    else
      var r := c.value.value;
      if !IsVerdict(r.action) then FaultDeny(v, "handler returned invalid action")
      else v.(action := r.action, reason := Plain(r.reason), mode := if AdoptableMode(r.mode) then r.mode else v.mode)
  }

  // --- The stages ------------------------------------------------------------------------

  /** A stage either ends the evaluation or goes on, with the trust posture the
      evaluator will be told. */
  datatype Staged = Done(decision: Decision) | Go(decision: Decision, posture: TrustState)

  function Checked(d: Decision, posture: TrustState): Staged {
    if Allowed(d) then Go(d, posture) else Done(d)
  }

  function IdentityCheck(p: Setup, req: Request): Staged {
    if p.requireAgentId && req.agentId == "" then
      Checked(Mark(p, req, Initial, IdentityStage, MissingIdentity, IdentityRequired), Unknown)
    else Go(Initial, Trusted)
  }

  function Blocking(v: Ruling, agent: string, state: TrustState): Ruling {
    v.(action := Deny, reason := AgentBlocked(agent, state))
  }

  function TrustCheck(p: Setup, req: Request, d: Decision, posture: TrustState): Staged {
    if p.trust.None? || req.agentId == "" then Go(d, posture)
    else
      var c := p.trust.value.check(req.agentId);
      if !c.Value? then Checked(Mark(p, req, d, TrustStage, FaultOf(c), TrustCheckFailed), Unknown)
      else if Blocked(c.value) then
        Done(d.(ruling := Blocking(d.ruling, req.agentId, c.value), trustScore := 0.0, trustState := c.value))
      else
        Go(d.(trustState := c.value, trustScore := if c.value == Evaluating then 0.5 else d.trustScore), c.value)
  }

  function AfterTrust(p: Setup, req: Request): Staged {
    var s := IdentityCheck(p, req);
    if s.Done? then s else TrustCheck(p, req, s.decision, s.posture)
  }

  function ApplyWinner(v: Ruling, w: Rule): Ruling {
    var named := v.(credit := Attribution(w.name, w.name, w.policyFile), mode := if AdoptableMode(w.mode) then w.mode else v.mode);
    match w.action
    case Deny => named.(action := Deny, reason := if w.reason == "" then DeniedByPolicy(w.name) else Plain(w.reason))
    case Warn => named.(action := Warn, reason := Plain(w.reason))
    case Audit => named.(action := Warn, reason := Plain(w.reason))
    case Escalate => named.(action := Escalate, reason := Plain(w.reason), mode := Classified)
    case RequireApproval => named.(action := RequireApproval, reason := Plain(w.reason))
    case _ => named
  }

  function StaticStage(p: Setup, req: Request, d: Decision, posture: TrustState): Staged {
    var listed := d.(matchedRules := d.matchedRules + MatchedNames(p.rules, req, p.env));
    var w := Winner(p.rules, req, p.env);
    if w.None? then Go(listed, posture)
    else
      var ruled := listed.(ruling := ApplyWinner(d.ruling, w.value));
      if w.value.action == Deny then Done(ruled) else Go(ruled, posture)
  }

  function AfterStatic(p: Setup, req: Request): Staged {
    var s := AfterTrust(p, req);
    if s.Done? then s else StaticStage(p, req, s.decision, s.posture)
  }

  function BlockingAction(r: InterceptResult): Action {
    if r.action == Other("") then Deny else r.action
  }

  predicate ValidBlock(r: InterceptResult) {
    BlockingAction(r) != Allow && IsVerdict(BlockingAction(r))
  }

  /** The check failure an interceptor call amounts to, if any. */
  function InterceptFault(c: Call<Option<InterceptResult>>): Option<CheckFailure> {
    if !c.Value? then Some(CheckFailure(InterceptorStage, FaultOf(c), InterceptorError))
    else if c.value.Some? && !c.value.value.allowed && !ValidBlock(c.value.value)
    then Some(CheckFailure(InterceptorStage, InvalidResult, InterceptorInvalid))
    else None
  }

  function InterceptStage(p: Setup, req: Request, d: Decision, posture: TrustState): Staged {
    var c := p.intercept(req);
    var fault := InterceptFault(c);
    if fault.Some? then Checked(MarkEnforced(d, fault.value, Enforces(p, req)), posture)
    else if c.value.None? || c.value.value.allowed then Go(d, posture)
    else
      var r := c.value.value;
      var d' := d.(ruling := AdoptStricter(d.ruling, BlockingAction(r), r.reason));
      if IsStricter(d.ruling, BlockingAction(r)) && d'.ruling.action == Deny then Done(d') else Go(d', posture)
  }

  function AfterIntercept(p: Setup, req: Request): Staged {
    var s := AfterStatic(p, req);
    if s.Done? then s else InterceptStage(p, req, s.decision, s.posture)
  }

  /** The body of Evaluate before its deferred block: it returns, or the
      escalation handler's panic unwinds it. */
  datatype Deliberation = Concluded(decision: Decision) | Crashed(decision: Decision)

  /** A ruling with the evaluator's verdict folded in; `adopted` says whether
      that verdict decided, `crashed` whether the handler panicked. */
  datatype Taken = Taken(ruling: Ruling, adopted: bool, crashed: bool)

  function TakeEscalation(p: Setup, req: Request, v: Ruling, ev: EvalDecision): Taken {
    if !IsStricter(v, Escalate) then Taken(v, false, false)
    else
      var esc := AdoptStricter(v, Escalate, ev.escalationReason).(mode := Classified);
      if p.escalate.None? then Taken(esc, true, false)
      else if p.dryRun then Taken(esc.(reason := AwaitSkipped(ev.escalationReason)), true, false)
      else
        var c := p.escalate.value(req, ev.escalationReason);
        if c.Panic? then Taken(esc, true, true)
        else
          var r := Resolve(esc, c);
          if VerdictRank(r.action) < VerdictRank(v.action) then Taken(v, false, false) else Taken(r, true, false)
  }

  /** The pipeline verdict an evaluator action stands for. */
  function EvalActionVerdict(a: EvalAction): Action {
    match a
    case EvalDeny => Deny
    case EvalEscalate => Escalate
    case EvalRequireApproval => RequireApproval
    case EvalWarn => Warn
    case _ => Allow
  }

  function TakeVerdict(p: Setup, req: Request, v: Ruling, ev: EvalDecision): Taken {
    if ev.action == EvalEscalate then TakeEscalation(p, req, v, ev)
    else
      var a := EvalActionVerdict(ev.action);
      Taken(AdoptStricter(v, a, ev.reason), IsStricter(v, a), false)
  }

  function SkipCategory(ev: EvalDecision): Category {
    if ev.timedOut then TimedOut else InvalidResult
  }

  /** The evaluator's policy names the verdict it decided, and one no static rule
      is credited with. */
  function NamePolicy(v: Ruling, adopted: bool, policy: Option<string>): Ruling {
    if policy.Some? && (adopted || v.credit.matchedRule == "") then v.(credit := v.credit.(policyId := policy.value)) else v
  }

  /** The decision once the evaluator's action is folded in. */
  function TakeAction(p: Setup, req: Request, d: Decision, ev: EvalDecision): Decision {
    if ev.action == EvalUnknown then Mark(p, req, d, PolicyEvalStage, InvalidResult, EvaluationUnknownAction)
    else d.(ruling := TakeVerdict(p, req, d.ruling, ev).ruling)
  }

  function RecordSkips(p: Setup, req: Request, d: Decision, ev: EvalDecision, deniedDespiteFault: bool): Decision {
    if !deniedDespiteFault then d.(trustCountable := false)
    else
      var marked := Mark(p, req, d, PolicyEvalStage, SkipCategory(ev), RuleSkipped);
      marked.(trustCountable := marked.ruling.action == Deny)
  }

  function Adopt(p: Setup, req: Request, d: Decision, ev: EvalDecision, deniedDespiteFault: bool): Deliberation {
    var t := TakeVerdict(p, req, d.ruling, ev);
    var taken := TakeAction(p, req, d, ev);
    if t.crashed then Crashed(taken)
    else
      var named := taken.(ruling := NamePolicy(taken.ruling, t.adopted, ev.matchedPolicy));
      Concluded(RecordSkips(p, req, named, ev, deniedDespiteFault))
  }

  /** The check failure an evaluator call amounts to before its action is read. */
  function EvalFault(c: Call<Option<EvalDecision>>): Option<CheckFailure> {
    if !c.Value? then Some(CheckFailure(PolicyEvalStage, FaultOf(c), EvaluationFailed))
    else if c.value.None? then Some(CheckFailure(PolicyEvalStage, InvalidResult, EvaluationEmpty))
    else if c.value.value.strictFailed then Some(CheckFailure(PolicyEvalStage, MissingConfig, StrictValidationFailed))
    else None
  }

  /** Rules the evaluator skipped undo every verdict short of deny. */
  function TakeDecision(p: Setup, req: Request, d: Decision, ev: EvalDecision): Deliberation {
    if ev.errors != [] && ev.action != EvalDeny then
      var marked := Mark(p, req, d, PolicyEvalStage, SkipCategory(ev), RuleSkipped);
      if Allowed(marked) then Adopt(p, req, marked, ev, false) else Concluded(marked)
    else Adopt(p, req, d, ev, ev.errors != [])
  }

  function EvalStage(p: Setup, req: Request, d: Decision, posture: TrustState): Deliberation {
    var c := p.evaluate(req, d.trustScore, posture);
    var fault := EvalFault(c);
    if fault.Some? then Concluded(MarkEnforced(d, fault.value, Enforces(p, req)))
    else TakeDecision(p, req, d, c.value.value)
  }

  function Deliberate(p: Setup, req: Request): Deliberation {
    if p.configErr.Some? then
      Concluded(MarkEnforced(Initial, CheckFailure(ConfigStage, MissingConfig, ConfigInvalid(p.configErr.value)), true))
    else
      var s := AfterIntercept(p, req);
      if s.Done? then Concluded(s.decision) else EvalStage(p, req, s.decision, s.posture)
  }

  // --- The deferred block -----------------------------------------------------------------

  /** Dry-run turns this blocking decision into an allow. */
  predicate Converts(p: Setup, d: Decision) {
    p.dryRun && p.configErr.None? && (d.ruling.action == Deny || d.ruling.action == CheckIndeterminate)
  }

  /** recordTrustDecision's skip on reason text. */
  predicate TrustMarked(reason: string) {
    HasPrefix(reason, "trust check failed") || Contains(reason, " is ISOLATED") || Contains(reason, " is TERMINATED")
  }

  /** The decision is handed to the trust backend. */
  predicate Submits(p: Setup, req: Request, d: Decision) {
    && !Converts(p, d)
    && req.agentId != ""
    && p.trust.Some? && p.trust.value.record.Some?
    && (d.check.None? || d.trustCountable)
    && !TrustMarked(Render(d.ruling.reason))
  }

  function Recorded(p: Setup, req: Request, d: Decision): Call<TrustUpdate>
    requires Submits(p, req, d)
  {
    p.trust.value.record.value(req, d)
  }

  function ApplyUpdate(req: Request, d: Decision, u: TrustUpdate): Decision {
    var d' := d.(trustScore := u.score, trustState := u.after);
    if u.after == Isolated && Allowed(d) then d'.(ruling := Blocking(d.ruling, req.agentId, Isolated))
    else if u.after == Evaluating && Allowed(d) then
      d'.(ruling := d.ruling.(action := RequireApproval, reason := AgentDegraded(req.agentId)))
    else d'
  }

  function Settle(p: Setup, req: Request, d: Decision): Decision {
    if !Submits(p, req, d) then d
    else
      var c := Recorded(p, req, d);
      if c.Value? then ApplyUpdate(req, d, c.value)
      else Mark(p, req, d, TrustUpdateStage, FaultOf(c), TrustUpdateFailed)
  }

  function DecisionEvent(p: Setup, req: Request, d: Decision): AuditEvent {
    AuditEvent(req, false, Converts(p, d), d.ruling, d.trustScore, d.trustState, d.check, d.matchedRules)
  }

  function TransitionEvent(req: Request, d: Decision, u: TrustUpdate): AuditEvent {
    var reason := Plain("trust " + TrustStateName(u.before) + " -> " + TrustStateName(u.after) + " after " + u.outcome);
    AuditEvent(req, true, false, d.ruling.(reason := reason, mode := Deterministic), u.score, u.after, None, d.matchedRules)
  }

  /** The audit events for deliberated decision d: exactly one decision event,
      then one transition event if the trust state changed. */
  function Events(p: Setup, req: Request, d: Decision): seq<AuditEvent> {
    var settled := Settle(p, req, d);
    [DecisionEvent(p, req, settled)]
    + (if Submits(p, req, d) && Recorded(p, req, d).Value? && Recorded(p, req, d).value.transition
       then [TransitionEvent(req, settled, Recorded(p, req, d).value)] else [])
  }

  function ConvertDryRun(p: Setup, d: Decision): Decision {
    if !Converts(p, d) then d
    else d.(dryRun := true, ruling := d.ruling.(action := Allow, reason := DryRunWould(d.ruling.action == CheckIndeterminate, d.ruling.reason)))
  }

  /** The backend's reply to a submitted decision; None when it is not submitted. */
  function SubmittedCall(p: Setup, req: Request, d: Decision): Option<Call<TrustUpdate>> {
    if Submits(p, req, d) then Some(Recorded(p, req, d)) else None
  }

  function DeliberatedAs(crashed: bool, d: Decision): Deliberation {
    if crashed then Crashed(d) else Concluded(d)
  }

  /** What Evaluate returns: a decision, or None when a handler panic unwinds. */
  function Answer(p: Setup, req: Request): Option<Decision> {
    var d := Deliberate(p, req);
    if d.Crashed? then None else Some(ConvertDryRun(p, Settle(p, req, d.decision)))
  }

  // --- The decision, updated in place -------------------------------------------------------

  /** The one decision an evaluation mutates through its stages. */
  class GovernanceDecision {
    var action: Action
    var reason: Reason
    var mode: DecisionMode
    var policyId: string
    var matchedRule: string
    var policyFile: string
    var matchedRules: seq<string>
    var trustScore: real
    var trustState: TrustState
    var dryRun: bool
    var check: Option<CheckFailure>
    var trustCountable: bool

    function Value(): Decision
      reads this
    {
      Decision(Ruling(action, reason, mode, Attribution(policyId, matchedRule, policyFile)),
               matchedRules, trustScore, trustState, dryRun, check, trustCountable)
    }

    constructor ()
      ensures Value() == Initial
    {
      action, reason, mode := Allow, Plain(""), Deterministic;
      policyId, matchedRule, policyFile, matchedRules := "", "", "", [];
      trustScore, trustState := 1.0, Trusted;
      dryRun, check, trustCountable := false, None, false;
    }

    method ClearRule()
      modifies this`policyId, this`matchedRule, this`policyFile, this`mode
      ensures Value() == old(Value()).(ruling := ClearAttribution(old(Value()).ruling))
    {
      if matchedRule != "" {
        matchedRule := "";
        policyFile := "";
        policyId := "";
        mode := Deterministic;
      }
    }

    /** markCheckFailureEnforced. */
    method MarkFailure(cf: CheckFailure, enforcing: bool)
      modifies this
      ensures Value() == MarkEnforced(old(Value()), cf, enforcing)
    {
      if check.None? {
        check := Some(cf);
      }
      if action != Allow && action != Warn {
        return;
      }
      if cf.stage == TrustStage || cf.stage == IdentityStage || cf.stage == ConfigStage {
        trustScore := 0.0;
        trustState := Unknown;
      }
      if enforcing {
        if action == Warn {
          ClearRule();
        }
        action := CheckIndeterminate;
        reason := Indeterminate(cf);
      }
    }

    /** adoptStricter. */
    method TakeStricter(a: Action, why: string) returns (adopted: bool)
      modifies this
      ensures adopted == IsStricter(old(Value()).ruling, a)
      ensures Value() == old(Value()).(ruling := AdoptStricter(old(Value()).ruling, a, why))
    {
      if VerdictRank(a) <= VerdictRank(action) {
        return false;
      }
      action := a;
      reason := Plain(why);
      ClearRule();
      return true;
    }

    /** restoreVerdict. */
    method RestoreFrom(prior: Ruling)
      modifies this
      ensures Value() == old(Value()).(ruling := prior)
    {
      action := prior.action;
      reason := prior.reason;
      matchedRule := prior.credit.matchedRule;
      policyFile := prior.credit.policyFile;
      policyId := prior.credit.policyId;
      mode := prior.mode;
    }

    /** resolveEscalation once the handler has returned. */
    method ResolveWith(c: Call<Option<Resolution>>)
      requires !c.Panic?
      modifies this
      ensures Value() == old(Value()).(ruling := Resolve(old(Value()).ruling, c))
    {
      if c.Error? || c.value.None? || !IsVerdict(c.value.value.action) {
        action := Deny;
        reason := EscalationFault(
          if c.Error? then c.text
          else if c.value.None? then "handler returned no decision"
          else "handler returned invalid action");
        mode := Deterministic;
        return;
      }
      action := c.value.value.action;
      reason := Plain(c.value.value.reason);
      if AdoptableMode(c.value.value.mode) {
        mode := c.value.value.mode;
      }
    }

    /** Stage 2's winner. */
    method ApplyRule(w: Rule)
      modifies this
      ensures Value() == old(Value()).(ruling := ApplyWinner(old(Value()).ruling, w))
    {
      policyId := w.name;
      matchedRule := w.name;
      policyFile := w.policyFile;
      if AdoptableMode(w.mode) {
        mode := w.mode;
      }
      match w.action {
        case Deny =>
          action := Deny;
          reason := Plain(w.reason);
          if w.reason == "" {
            reason := DeniedByPolicy(w.name);
          }
        case Warn =>
          action := Warn;
          reason := Plain(w.reason);
        case Audit =>
          action := Warn;
          reason := Plain(w.reason);
        case Escalate =>
          action := Escalate;
          reason := Plain(w.reason);
          mode := Classified;
        case RequireApproval =>
          action := RequireApproval;
          reason := Plain(w.reason);
        case _ =>
      }
    }

    /** The deferred block's reading of a trust update. */
    method TakeUpdate(agent: string, u: TrustUpdate)
      modifies this
      ensures forall req: Request :: req.agentId == agent ==> Value() == ApplyUpdate(req, old(Value()), u)
    {
      trustScore := u.score;
      trustState := u.after;
      if u.after == Isolated && (action == Allow || action == Warn) {
        action := Deny;
        reason := AgentBlocked(agent, Isolated);
      } else if u.after == Evaluating && (action == Allow || action == Warn) {
        action := RequireApproval;
        reason := AgentDegraded(agent);
      }
    }

    /** Dry-run lets this block through. */
    method Convert()
      modifies this
      ensures Value() == old(Value()).(dryRun := true,
                                       ruling := old(Value()).ruling.(action := Allow, reason := DryRunWould(old(action) == CheckIndeterminate, old(reason))))
    {
      dryRun := true;
      reason := DryRunWould(action == CheckIndeterminate, reason);
      action := Allow;
    }
  }

  // --- Evaluate as written ----------------------------------------------------------------

  function StagedAs(go: bool, d: Decision, posture: TrustState): Staged {
    if go then Go(d, posture) else Done(d)
  }

  class Pipeline {
    const setup: Setup
    var events: seq<AuditEvent>

    constructor (p: Setup)
      ensures setup == p && events == []
    {
      setup := p;
      events := [];
    }

    /** markCheckFailure: enforced unless the transport is declared otherwise. */
    method Fail(req: Request, d: GovernanceDecision, stage: Stage, category: Category, cause: Cause)
      modifies d
      ensures d.Value() == Mark(setup, req, old(d.Value()), stage, category, cause)
    {
      d.MarkFailure(CheckFailure(stage, category, cause), req.transport !in setup.nonEnforcing);
    }

    /** Stage 2's loop over the rules. */
    method FindWinner(req: Request) returns (winner: Option<Rule>, names: seq<string>)
      ensures winner == Winner(setup.rules, req, setup.env)
      ensures names == MatchedNames(setup.rules, req, setup.env)
    {
      winner := None;
      names := [];
      var i := 0;
      while i < |setup.rules|
        invariant 0 <= i <= |setup.rules|
        invariant winner == Winner(setup.rules[..i], req, setup.env)
        invariant names == MatchedNames(setup.rules[..i], req, setup.env)
      {
        var rule := setup.rules[i];
        assert setup.rules[..i + 1][..i] == setup.rules[..i];
        if MatchesRequest(rule, req, setup.env) {
          names := names + [rule.name];
          if winner.None? || StaticRank(rule.action) > StaticRank(winner.value.action) {
            winner := Some(rule);
          }
        }
        i := i + 1;
      }
      assert setup.rules[..|setup.rules|] == setup.rules;
    }

    /** Stage 1. */
    method RunTrust(req: Request, d: GovernanceDecision) returns (go: bool, posture: TrustState)
      requires d.Value() == Initial
      modifies d
      ensures StagedAs(go, d.Value(), posture) == AfterTrust(setup, req)
    {
      posture := Trusted;
      if setup.requireAgentId && req.agentId == "" {
        Fail(req, d, IdentityStage, MissingIdentity, IdentityRequired);
        if !Permits(d.action) {
          return false, posture;
        }
        posture := Unknown;
      }
      if setup.trust.Some? && req.agentId != "" {
        var state := setup.trust.value.check(req.agentId);
        if !state.Value? {
          Fail(req, d, TrustStage, FaultOf(state), TrustCheckFailed);
          if !Permits(d.action) {
            return false, posture;
          }
          posture := Unknown;
        } else {
          posture := state.value;
          d.trustState := state.value;
          if Blocked(state.value) {
            d.action := Deny;
            d.reason := AgentBlocked(req.agentId, state.value);
            d.trustScore := 0.0;
            return false, posture;
          }
          if state.value == Evaluating {
            d.trustScore := 0.5;
          }
        }
      }
      return true, posture;
    }

    /** Stage 2. */
    method RunStatic(req: Request, d: GovernanceDecision, posture: TrustState) returns (go: bool)
      modifies d
      ensures StagedAs(go, d.Value(), posture) == StaticStage(setup, req, old(d.Value()), posture)
    {
      var winner, names := FindWinner(req);
      d.matchedRules := d.matchedRules + names;
      if winner.None? {
        return true;
      }
      d.ApplyRule(winner.value);
      return winner.value.action != Deny;
    }

    /** Stage 3. */
    method RunIntercept(req: Request, d: GovernanceDecision, posture: TrustState) returns (go: bool)
      modifies d
      ensures StagedAs(go, d.Value(), posture) == InterceptStage(setup, req, old(d.Value()), posture)
    {
      var result := setup.intercept(req);
      if !result.Value? {
        Fail(req, d, InterceptorStage, FaultOf(result), InterceptorError);
        return Permits(d.action);
      }
      if result.value.None? || result.value.value.allowed {
        return true;
      }
      var action := result.value.value.action;
      if action == Other("") {
        action := Deny;
      }
      if action == Allow || !IsVerdict(action) {
        Fail(req, d, InterceptorStage, InvalidResult, InterceptorInvalid);
        return Permits(d.action);
      }
      var adopted := d.TakeStricter(action, result.value.value.reason);
      return !(adopted && d.action == Deny);
    }

    /** The escalate case of stage 4. */
    method RunEscalation(req: Request, d: GovernanceDecision, ev: EvalDecision) returns (adopted: bool, crashed: bool)
      modifies d
      ensures Taken(d.Value().ruling, adopted, crashed) == TakeEscalation(setup, req, old(d.Value()).ruling, ev)
      ensures d.Value() == old(d.Value()).(ruling := d.Value().ruling)
    {
      var prior := d.Value().ruling;
      adopted := d.TakeStricter(Escalate, ev.escalationReason);
      if !adopted {
        return false, false;
      }
      d.mode := Classified;
      if setup.escalate.None? {
        return true, false;
      }
      if setup.dryRun {
        d.reason := AwaitSkipped(ev.escalationReason);
        return true, false;
      }
      var c := setup.escalate.value(req, ev.escalationReason);
      if c.Panic? {
        return true, true;
      }
      d.ResolveWith(c);
      if VerdictRank(d.action) < VerdictRank(prior.action) {
        d.RestoreFrom(prior);
        return false, false;
      }
      return true, false;
    }

    /** The switch of stage 4 over the evaluator's action. */
    method RunAction(req: Request, d: GovernanceDecision, ev: EvalDecision) returns (adopted: bool, crashed: bool)
      modifies d
      ensures d.Value() == TakeAction(setup, req, old(d.Value()), ev)
      ensures adopted == TakeVerdict(setup, req, old(d.Value()).ruling, ev).adopted
      ensures crashed == TakeVerdict(setup, req, old(d.Value()).ruling, ev).crashed
    {
      adopted, crashed := false, false;
      match ev.action {
        case EvalDeny =>
          adopted := d.TakeStricter(Deny, ev.reason);
        case EvalEscalate =>
          adopted, crashed := RunEscalation(req, d, ev);
        case EvalRequireApproval =>
          adopted := d.TakeStricter(RequireApproval, ev.reason);
        case EvalWarn =>
          adopted := d.TakeStricter(Warn, ev.reason);
        case EvalAllow =>
        case EvalUnknown =>
          Fail(req, d, PolicyEvalStage, InvalidResult, EvaluationUnknownAction);
      }
    }

    /** Stage 4 once the evaluator has returned a usable decision. */
    method RunAdopt(req: Request, d: GovernanceDecision, ev: EvalDecision, deniedDespiteFault: bool) returns (crashed: bool)
      modifies d
      ensures DeliberatedAs(crashed, d.Value()) == Adopt(setup, req, old(d.Value()), ev, deniedDespiteFault)
    {
      var adopted;
      adopted, crashed := RunAction(req, d, ev);
      if crashed {
        return;
      }
      if ev.matchedPolicy.Some? && (adopted || d.matchedRule == "") {
        d.policyId := ev.matchedPolicy.value;
      }
      if deniedDespiteFault {
        Fail(req, d, PolicyEvalStage, SkipCategory(ev), RuleSkipped);
      }
      d.trustCountable := deniedDespiteFault && d.action == Deny;
    }

    /** Stage 4. */
    method RunEval(req: Request, d: GovernanceDecision, posture: TrustState) returns (crashed: bool)
      modifies d
      ensures DeliberatedAs(crashed, d.Value()) == EvalStage(setup, req, old(d.Value()), posture)
    {
      var c := setup.evaluate(req, d.trustScore, posture);
      if !c.Value? {
        Fail(req, d, PolicyEvalStage, FaultOf(c), EvaluationFailed);
        return false;
      }
      if c.value.None? {
        Fail(req, d, PolicyEvalStage, InvalidResult, EvaluationEmpty);
        return false;
      }
      var ev := c.value.value;
      if ev.strictFailed {
        Fail(req, d, PolicyEvalStage, MissingConfig, StrictValidationFailed);
        return false;
      }
      var deniedDespiteFault := false;
      if |ev.errors| > 0 {
        if ev.action != EvalDeny {
          Fail(req, d, PolicyEvalStage, SkipCategory(ev), RuleSkipped);
          if !Permits(d.action) {
            return false;
          }
        } else {
          deniedDespiteFault := true;
        }
      }
      crashed := RunAdopt(req, d, ev, deniedDespiteFault);
    }

    /** The body of Evaluate, with its early returns. */
    method RunStages(req: Request, d: GovernanceDecision) returns (crashed: bool)
      requires d.Value() == Initial
      modifies d
      ensures DeliberatedAs(crashed, d.Value()) == Deliberate(setup, req)
    {
      if setup.configErr.Some? {
        d.MarkFailure(CheckFailure(ConfigStage, MissingConfig, ConfigInvalid(setup.configErr.value)), true);
        return false;
      }
      var go, posture := RunTrust(req, d);
      if go {
        go := RunStatic(req, d, posture);
      }
      if go {
        go := RunIntercept(req, d, posture);
      }
      if !go {
        return false;
      }
      crashed := RunEval(req, d, posture);
    }

    /** The deferred block once the trust update, if any, has come back: read it,
        emit audit, apply dry-run. */
    method Finish(req: Request, d: GovernanceDecision, update: Option<Call<TrustUpdate>>)
      requires update == SubmittedCall(setup, req, d.Value())
      modifies this`events, d
      ensures d.Value() == ConvertDryRun(setup, Settle(setup, req, old(d.Value())))
      ensures events == old(events) + Events(setup, req, old(d.Value()))
    {
      ghost var before := d.Value();
      if update.Some? {
        if update.value.Value? {
          d.TakeUpdate(req.agentId, update.value.value);
        } else {
          Fail(req, d, TrustUpdateStage, FaultOf(update.value), TrustUpdateFailed);
        }
      }
      assert d.Value() == Settle(setup, req, before);
      events := events + [DecisionEvent(setup, req, d.Value())];
      if update.Some? && update.value.Value? && update.value.value.transition {
        events := events + [TransitionEvent(req, d.Value(), update.value.value)];
      }
      assert events == old(events) + Events(setup, req, before);
      if Converts(setup, d.Value()) {
        d.Convert();
      }
    }

    /** The whole evaluation: deliberate, update trust, emit audit, convert. */
    method Evaluate(req: Request) returns (answer: Option<Decision>)
      modifies this`events
      ensures answer == Answer(setup, req)
      ensures events == old(events) + Events(setup, req, Deliberate(setup, req).decision)
    {
      var d := new GovernanceDecision();
      var crashed := RunStages(req, d);
      var update := None;
      if Submits(setup, req, d.Value()) {
        update := Some(setup.trust.value.record.value(req, d.Value()));
      }
      Finish(req, d, update);
      return if crashed then None else Some(d.Value());
    }
  }
}
