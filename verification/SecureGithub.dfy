/** The Secure GitHub profile (adapters/securegithub): tool classification, the
    taint and repo-binding session machine, and the governed call. */
module SecureGithub {
  import opened Text
  import opened Verdicts
  import opened Policy
  import opened Pipeline

  // --- Calls and their arguments --------------------------------------------------------

  /** An argument value; Printed carries the printed form of any other type. */
  datatype Arg = TextArg(text: string) | Flag(on: bool) | Printed(text: string)

  type Args = map<string, Arg>

  function BoolText(b: bool): string {
    if b then "true" else "false"
  }

  function StringArg(args: Args, key: string): string {
    if key !in args then ""
    else if args[key].Flag? then BoolText(args[key].on)
    else TrimSpace(args[key].text)
  }

  predicate Truthy(v: Arg) {
    match v
    case Flag(on) => on
    case TextArg(text) => EqualFold(TrimSpace(text), "true") || EqualFold(TrimSpace(text), "yes")
    case Printed(text) => EqualFold(TrimSpace(text), "true")
  }

  predicate BoolArg(args: Args, key: string) {
    key in args && Truthy(args[key])
  }

  /** A tool call; `generatedId` is the identifier generated for it in case it
      names no request id. */
  datatype ToolCall = ToolCall(
    generatedId: string,
    toolName: string,
    arguments: Args,
    agentId: string,
    tenantId: string,
    sessionId: string,
    paramName: string,
    paramArguments: Args)

  function CalledTool(call: ToolCall): string {
    if call.toolName == "" then call.paramName else call.toolName
  }

  function CalledArgs(call: ToolCall): Args {
    if call.arguments == map[] then call.paramArguments else call.arguments
  }

  /** The first value that is not empty; blanks count as values. */
  function FirstSet(values: seq<string>): string {
    if values == [] then "" else if values[0] != "" then values[0] else FirstSet(values[1..])
  }

  // --- Classification ---------------------------------------------------------------------

  datatype Tool =
    | GetIssue
    | GetPullRequest
    | GetFileContents
    | CreateIssue
    | CreatePullRequest
    | CreateOrUpdateFile
    | PushFiles
    | MergePullRequest

  function ToolText(t: Tool): string {
    match t
    case GetIssue => "get_issue"
    case GetPullRequest => "get_pull_request"
    case GetFileContents => "get_file_contents"
    case CreateIssue => "create_issue"
    case CreatePullRequest => "create_pull_request"
    case CreateOrUpdateFile => "create_or_update_file"
    case PushFiles => "push_files"
    case MergePullRequest => "merge_pull_request"
  }

  datatype Capability = R0 | W0 | W1 | W2

  function CapabilityText(c: Capability): string {
    match c
    case R0 => "R0"
    case W0 => "W0"
    case W1 => "W1"
    case W2 => "W2"
  }

  datatype Classification = Classification(
    tool: Tool,
    capability: Capability,
    source: string,
    sink: string,
    taints: bool,
    taintSource: string)

  function NormalizeToolName(tool: string): string {
    var trimmed := TrimSpace(tool);
    if HasPrefix(trimmed, "github.") then trimmed[|"github."|..] else trimmed
  }

  function SourceClass(args: Args, fallback: string): string {
    var association := StringArg(args, "author_association");
    if StringArg(args, "source_class") != "" then StringArg(args, "source_class")
    else if StringArg(args, "source") != "" then StringArg(args, "source")
    else if EqualFold(association, "MEMBER") || EqualFold(association, "OWNER") || EqualFold(association, "COLLABORATOR")
            || BoolArg(args, "collaborator")
    then "allowlisted_resource"
    else fallback
  }

  function SinkClass(args: Args): string {
    if StringArg(args, "target_sink") != "" then StringArg(args, "target_sink")
    else if StringArg(args, "sink") != "" then StringArg(args, "sink")
    else if "private" in args && !Truthy(args["private"]) then "public_repo"
    else "private_repo"
  }

  predicate External(source: string) {
    source == "external_collaborator" || source == "public_resource"
  }

  /** The tool a name means; None for an unnamed or unsupported one. */
  function ParseTool(tool: string): Option<Tool> {
    var name := NormalizeToolName(tool);
    if name == "get_issue" then Some(GetIssue)
    else if name == "get_pull_request" then Some(GetPullRequest)
    else if name == "get_file_contents" then Some(GetFileContents)
    else if name == "create_issue" then Some(CreateIssue)
    else if name == "create_pull_request" then Some(CreatePullRequest)
    else if name == "create_or_update_file" then Some(CreateOrUpdateFile)
    else if name == "push_files" then Some(PushFiles)
    else if name == "merge_pull_request" then Some(MergePullRequest)
    else None
  }

  function ReadClass(t: Tool, args: Args, fallback: string, taintSource: string): Classification {
    var source := SourceClass(args, fallback);
    Classification(t, R0, source, "none", External(source), taintSource)
  }

  function WriteClass(t: Tool, args: Args, capability: Capability): Classification {
    Classification(t, capability, SourceClass(args, "agent_generated"), SinkClass(args), false, "")
  }

  function ClassOf(t: Tool, args: Args): Classification {
    match t
    case GetIssue => ReadClass(t, args, "external_collaborator", "github.issue_body")
    case GetPullRequest => ReadClass(t, args, "external_collaborator", "github.pull_request_body")
    case GetFileContents => ReadClass(t, args, "allowlisted_resource", "github.file_contents")
    case CreateIssue => WriteClass(t, args, W0)
    case CreatePullRequest => WriteClass(t, args, W0)
    case CreateOrUpdateFile => WriteClass(t, args, W1)
    case PushFiles => WriteClass(t, args, W1)
    case MergePullRequest => WriteClass(t, args, W2)
  }

  function ClassifyTool(tool: string, args: Args): Option<Classification> {
    var t := ParseTool(tool);
    if t.None? then None else Some(ClassOf(t.value, args))
  }

  function MutationText(c: Capability): string {
    match c
    case R0 => "none"
    case W0 => "issue_or_pr_create"
    case W1 => "private_repo_content_write"
    case W2 => "merge_or_release"
  }

  lemma ToolTextHasNoSlash(t: Tool)
    ensures '/' !in ToolText(t)
  {
  }

  /** Each tool has a name of its own. */
  lemma ToolTextsDiffer(t: Tool, u: Tool)
    ensures ToolText(t) == ToolText(u) ==> t == u
  {
  }

  lemma ParsedIsNamed(tool: string)
    ensures ParseTool(tool).Some? ==> NormalizeToolName(tool) == ToolText(ParseTool(tool).value)
  {
  }

  lemma NamedIsParsed(tool: string, t: Tool)
    requires NormalizeToolName(tool) == ToolText(t)
    ensures ParseTool(tool).Some?
  {
  }

  /** The tool is recognised by its exact name, once surrounding white space and the
      profile prefix are off, and no other name is supported. */
  lemma ParseToolExact(tool: string, t: Tool)
    ensures ParseTool(tool) == Some(t) <==> NormalizeToolName(tool) == ToolText(t)
  {
    if NormalizeToolName(tool) == ToolText(t) {
      NamedIsParsed(tool, t);
    }
    ParsedIsNamed(tool);
    if ParseTool(tool).Some? {
      ToolTextsDiffer(ParseTool(tool).value, t);
    }
  }

  /** Only reads taint, and a tainting read names its source. */
  lemma TaintingReads(t: Tool, args: Args)
    ensures ClassOf(t, args).taints ==> ClassOf(t, args).capability == R0 && ClassOf(t, args).taintSource != ""
    ensures ClassOf(t, args).tool == t
  {
  }

  // --- Configuration ---------------------------------------------------------------------

  datatype ProfileConfig = ProfileConfig(tenantId: string, agentId: string, sessionId: string, owner: string, repo: string,
                           oneRepoPerSession: bool, fixtureMode: bool, liveMode: bool)

  const DefaultSessionId := "fixture-session"

  /** withDefaults: one repo per session is not optional. */
  function WithDefaults(c: ProfileConfig): ProfileConfig {
    ProfileConfig(FirstSet([c.tenantId, "fixture-tenant"]), FirstSet([c.agentId, "secure-github-fixture-agent"]),
           FirstSet([c.sessionId, DefaultSessionId]), FirstSet([c.owner, "fixture-org"]),
           FirstSet([c.repo, "fixture-private-repo"]), true, !c.liveMode, c.liveMode)
  }

  function OwnerOf(args: Args, cfg: ProfileConfig): string {
    FirstSet([StringArg(args, "owner"), cfg.owner])
  }

  function RepoOf(args: Args, cfg: ProfileConfig): string {
    FirstSet([StringArg(args, "repo"), cfg.repo])
  }

  function SessionOf(call: ToolCall, cfg: ProfileConfig): string {
    FirstSet([call.sessionId, StringArg(CalledArgs(call), "session_id"), cfg.sessionId])
  }

  // --- Sessions ----------------------------------------------------------------------------

  datatype Session = Session(owner: string, repo: string, tainted: bool, sources: seq<string>)

  const NewSession := Session("", "", false, [])

  type Sessions = map<string, Session>

  function SessionKey(id: string): string {
    if id == "" then DefaultSessionId else id
  }

  function Lookup(store: Sessions, id: string): Session {
    if SessionKey(id) in store then store[SessionKey(id)] else NewSession
  }

  function AppendUnique(values: seq<string>, value: string): seq<string> {
    if value == "" || value in values then values else values + [value]
  }

  predicate Unbound(s: Session) {
    s.owner == "" && s.repo == ""
  }

  /** A session after an attempt to bind it. */
  function Bound(s: Session, owner: string, repo: string): Session {
    if Unbound(s) then s.(owner := owner, repo := repo) else s
  }

  function Tainted(s: Session, source: string): Session {
    if source == "" then s else s.(tainted := true, sources := AppendUnique(s.sources, source))
  }

  class SessionStore {
    var sessions: Sessions

    constructor ()
      ensures sessions == map[]
    {
      sessions := map[];
    }

    method EnsureLocked(id: string) returns (s: Session)
      modifies this
      ensures s == Lookup(old(sessions), id)
      ensures sessions == old(sessions)[SessionKey(id) := s]
    {
      var key := if id == "" then DefaultSessionId else id;
      if key !in sessions {
        sessions := sessions[key := Session("", "", false, [])];
      }
      s := sessions[key];
      assert sessions == old(sessions)[key := s];
    }

    method Get(id: string) returns (s: Session)
      modifies this
      ensures s == Lookup(old(sessions), id)
      ensures sessions == old(sessions)[SessionKey(id) := s]
    {
      s := EnsureLocked(id);
    }

    method BindRepo(id: string, owner: string, repo: string) returns (ok: bool)
      modifies this
      ensures sessions == old(sessions)[SessionKey(id) := Bound(Lookup(old(sessions), id), owner, repo)]
      ensures ok <==> Lookup(sessions, id).owner == owner && Lookup(sessions, id).repo == repo
    {
      var s := EnsureLocked(id);
      var key := SessionKey(id);
      if s.owner == "" && s.repo == "" {
        s := s.(owner := owner, repo := repo);
        sessions := sessions[key := s];
        return true;
      }
      return s.owner == owner && s.repo == repo;
    }

    method MarkTainted(id: string, source: string)
      modifies this
      ensures source == "" ==> sessions == old(sessions)
      ensures source != "" ==> sessions == old(sessions)[SessionKey(id) := Tainted(Lookup(old(sessions), id), source)]
    {
      if source == "" {
        return;
      }
      var s := EnsureLocked(id);
      s := s.(tainted := true);
      if source !in s.sources {
        s := s.(sources := s.sources + [source]);
      }
      sessions := sessions[SessionKey(id) := s];
    }
  }

  // --- The envelope and the request ----------------------------------------------------------

  datatype Envelope = Envelope(
    requestId: string,
    sessionId: string,
    tenantId: string,
    agentId: string,
    kind: Classification,
    owner: string,
    repo: string,
    tainted: bool,
    taintSources: seq<string>,
    oneRepoPerSession: bool,
    violation: bool,
    fixtureMode: bool)

  const ProfileId := "secure-github"
  const Transport := "mcp"

  function Descriptive(e: Envelope): map<string, string> {
    map["profile_status" := "preview", "session_id" := e.sessionId, "risk_class" := CapabilityText(e.kind.capability),
        "source_class" := e.kind.source, "mutation_class" := MutationText(e.kind.capability),
        "target_repo" := e.owner + "/" + e.repo, "resource_id" := e.owner + "/" + e.repo,
        "owner" := e.owner, "repo" := e.repo, "collaborator_model" := "fixture_external_collaborator",
        "one_repo_per_session" := BoolText(e.oneRepoPerSession), "fixture_mode" := BoolText(e.fixtureMode),
        "live_github_evidence" := BoolText(!e.fixtureMode), "live_git_app_required" := "true"]
    + if e.taintSources == [] then map[]
      else map["taint_source" := Join(e.taintSources, ","), "taint_sources" := "[" + Join(e.taintSources, " ") + "]"]
  }

  /** The arguments the built-in rules read. */
  function Decisive(e: Envelope): map<string, string> {
    map["profile_id" := ProfileId, "capability_class" := CapabilityText(e.kind.capability), "target_sink" := e.kind.sink,
        "tainted" := BoolText(e.tainted), "repo_scope_violation" := BoolText(e.violation)]
  }

  function RequestOf(e: Envelope): Request {
    Request(e.requestId, Transport, e.agentId, e.tenantId, "github." + ToolText(e.kind.tool), "github." + ToolText(e.kind.tool), "", "",
            Descriptive(e) + Decisive(e))
  }

  /** The envelope of a call judged against its session as bound. */
  function EnvelopeOf(call: ToolCall, kind: Classification, cfg: ProfileConfig, s: Session): Envelope {
    var args := CalledArgs(call);
    var owner, repo := OwnerOf(args, cfg), RepoOf(args, cfg);
    var told := BoolArg(args, "tainted");
    Envelope(FirstSet([StringArg(args, "request_id"), call.generatedId]),
             SessionOf(call, cfg),
             FirstSet([call.tenantId, StringArg(args, "tenant_id"), cfg.tenantId]),
             FirstSet([call.agentId, StringArg(args, "agent_id"), cfg.agentId]),
             kind, owner, repo,
             s.tainted || told,
             if told then AppendUnique(s.sources, FirstSet([StringArg(args, "taint_source"), kind.taintSource])) else s.sources,
             cfg.oneRepoPerSession,
             !(s.owner == owner && s.repo == repo),
             cfg.fixtureMode)
  }

  // --- The built-in rules ----------------------------------------------------------------------

  function Eq(key: string, value: string): Matcher {
    Matcher("equals", "arguments." + key, "", value, [], "", false)
  }

  function DenyRule(name: string, reason: string, conditions: seq<Matcher>): Rule {
    Rule(name, "github.*", Deny, reason, Transport, Deterministic, [], [], None, conditions, "")
  }

  const CrossRepo := DenyRule(
    "deny-github-repo-scope-violation",
    "Secure GitHub fixture denies cross-repo tool calls when one-repo-per-session is enabled",
    [Eq("profile_id", ProfileId), Eq("repo_scope_violation", "true")])

  function AfterTaint(name: string, reason: string, capability: Capability): Rule {
    DenyRule(name, reason,
             [Eq("profile_id", ProfileId), Eq("tainted", "true"), Eq("target_sink", "private_repo"), Eq("capability_class", CapabilityText(capability))])
  }

  const WriteAfterTaint := AfterTaint(
    "deny-github-write-after-taint-fixture",
    "GitHub fixture denies protected private-repo write after external collaborator taint before upstream execution",
    W1)

  const CriticalAfterTaint := AfterTaint(
    "deny-github-critical-write-after-taint-fixture",
    "GitHub fixture denies critical private-repo mutation after external collaborator taint before upstream execution",
    W2)

  const DefaultPolicyRules: seq<Rule> := [CrossRepo, WriteAfterTaint, CriticalAfterTaint]

  /** A W1 or W2 call aimed at a private repository. */
  predicate PrivateWrite(e: Envelope) {
    (e.kind.capability == W1 || e.kind.capability == W2) && e.kind.sink == "private_repo"
  }

  /** The glob library matches github.* against any tool name without a slash. */
  ghost predicate GlobsGithub(env: Engines) {
    forall name: string :: '/' !in name ==> env.glob("github.*", "github." + name)
  }

  // --- The governed call --------------------------------------------------------------------------

  /** How a governed call ended; Served and UpstreamFailed reached GitHub. */
  datatype Outcome =
    | Unsupported
    | Unwound(envelope: Envelope)
    | Refused(envelope: Envelope)
    | UpstreamFailed(envelope: Envelope)
    | Served(envelope: Envelope)

  predicate Upstreamed(o: Outcome) {
    o.UpstreamFailed? || o.Served?
  }

  /** buildRequest's part of the session: bind it if it is unbound. */
  function Admitted(cfg: ProfileConfig, store: Sessions, call: ToolCall): Session {
    Bound(Lookup(store, SessionOf(call, cfg)), OwnerOf(CalledArgs(call), cfg), RepoOf(CalledArgs(call), cfg))
  }

  /** The outcome of a call whose envelope is e; `ok` says whether GitHub answers
      if asked. */
  function Dispatch(p: Setup, e: Envelope, ok: bool): Outcome {
    var answer := Answer(p, RequestOf(e));
    if answer.None? then Unwound(e)
    else if !Allowed(answer.value) then Refused(e)
    else if !ok then UpstreamFailed(e)
    else Served(if e.kind.taints then e.(tainted := true, taintSources := AppendUnique(e.taintSources, e.kind.taintSource)) else e)
  }

  lemma DispatchKeeps(p: Setup, e: Envelope, ok: bool)
    ensures var o := Dispatch(p, e, ok);
            && !o.Unsupported?
            && o.envelope.sessionId == e.sessionId && o.envelope.kind == e.kind
            && o.envelope.owner == e.owner && o.envelope.repo == e.repo && o.envelope.violation == e.violation
            && (e.tainted ==> o.envelope.tainted)
            && (Upstreamed(o) <==> Answer(p, RequestOf(e)).Some? && Allowed(Answer(p, RequestOf(e)).value))
  {
  }

  /** The store once the outcome is known: only a served tainting read marks its
      session. */
  function AfterOutcome(store: Sessions, o: Outcome): Sessions {
    if o.Served? && o.envelope.kind.taints && o.envelope.kind.taintSource != ""
    then store[SessionKey(o.envelope.sessionId) := Tainted(Lookup(store, o.envelope.sessionId), o.envelope.kind.taintSource)]
    else store
  }

  /** The session store and outcome after one governed call. */
  function Govern(cfg: ProfileConfig, p: Setup, store: Sessions, call: ToolCall, ok: bool): (Sessions, Outcome) {
    var c := ClassifyTool(CalledTool(call), CalledArgs(call));
    if c.None? then (store, Unsupported)
    else
      var s := Admitted(cfg, store, call);
      var o := Dispatch(p, EnvelopeOf(call, c.value, cfg, s), ok);
      (AfterOutcome(store[SessionKey(SessionOf(call, cfg)) := s], o), o)
  }

  class Adapter {
    const cfg: ProfileConfig
    const pipeline: Pipeline
    const sessions: SessionStore

    constructor (c: ProfileConfig, p: Setup)
      ensures cfg == WithDefaults(c) && pipeline.setup == p
      ensures fresh(pipeline) && fresh(sessions) && sessions.sessions == map[]
    {
      cfg := WithDefaults(c);
      pipeline := new Pipeline(p);
      sessions := new SessionStore();
    }

    /** buildRequest for a classified call. */
    method BuildRequest(call: ToolCall, kind: Classification) returns (e: Envelope)
      modifies sessions
      ensures var full, store := WithDefaults(cfg), old(sessions.sessions);
              && sessions.sessions == store[SessionKey(SessionOf(call, full)) := Admitted(full, store, call)]
              && e == EnvelopeOf(call, kind, full, Admitted(full, store, call))
    {
      var full := WithDefaults(cfg);
      var args := CalledArgs(call);
      var owner, repo := OwnerOf(args, full), RepoOf(args, full);
      var sessionId := SessionOf(call, full);
      var repoOk := true;
      if full.oneRepoPerSession {
        repoOk := sessions.BindRepo(sessionId, owner, repo);
      }
      var state := sessions.Get(sessionId);
      var sources := state.sources;
      if BoolArg(args, "tainted") {
        sources := AppendUnique(sources, FirstSet([StringArg(args, "taint_source"), kind.taintSource]));
      }
      e := Envelope(FirstSet([StringArg(args, "request_id"), call.generatedId]),
                    sessionId,
                    FirstSet([call.tenantId, StringArg(args, "tenant_id"), full.tenantId]),
                    FirstSet([call.agentId, StringArg(args, "agent_id"), full.agentId]),
                    kind, owner, repo, state.tainted || BoolArg(args, "tainted"), sources,
                    full.oneRepoPerSession, !repoOk, full.fixtureMode);
    }

    /** Evaluate, refuse or forward. */
    method Forward(envelope: Envelope, ok: bool) returns (o: Outcome)
      modifies pipeline`events
      ensures o == Dispatch(pipeline.setup, envelope, ok)
    {
      var e := envelope;
      var decision := pipeline.Evaluate(RequestOf(e));
      if decision.None? {
        return Unwound(e);
      }
      if !Allowed(decision.value) {
        return Refused(e);
      }
      if !ok {
        return UpstreamFailed(e);
      }
      if e.kind.taints {
        e := e.(tainted := true, taintSources := AppendUnique(e.taintSources, e.kind.taintSource));
      }
      return Served(e);
    }

    method GovernToolCall(call: ToolCall, ok: bool) returns (o: Outcome)
      modifies pipeline`events, sessions
      ensures (sessions.sessions, o) == Govern(WithDefaults(cfg), pipeline.setup, old(sessions.sessions), call, ok)
    {
      var kind := ClassifyTool(CalledTool(call), CalledArgs(call));
      if kind.None? {
        return Unsupported;
      }
      var e := BuildRequest(call, kind.value);
      ghost var bound := sessions.sessions;
      o := Forward(e, ok);
      DispatchKeeps(pipeline.setup, e, ok);
      if o.Served? && e.kind.taints {
        sessions.MarkTainted(e.sessionId, e.kind.taintSource);
      }
      assert sessions.sessions == AfterOutcome(bound, o);
    }
  }

  lemma OwnerIsSet(args: Args, cfg: ProfileConfig)
    ensures OwnerOf(args, WithDefaults(cfg)) != "" && RepoOf(args, WithDefaults(cfg)) != ""
  {
    DefaultsAreSet(cfg);
    FirstSetOfTwo(StringArg(args, "owner"), WithDefaults(cfg).owner);
    FirstSetOfTwo(StringArg(args, "repo"), WithDefaults(cfg).repo);
  }

  lemma FirstSetOfTwo(a: string, b: string)
    ensures FirstSet([a, b]) == if a != "" then a else b
  {
    assert FirstSet([b]) == b;
    assert [a, b][1..] == [b];
  }

  lemma DefaultsAreSet(cfg: ProfileConfig)
    ensures WithDefaults(cfg).owner != "" && WithDefaults(cfg).repo != ""
  {
    FirstSetOfTwo(cfg.owner, "fixture-org");
    FirstSetOfTwo(cfg.repo, "fixture-private-repo");
  }
}
