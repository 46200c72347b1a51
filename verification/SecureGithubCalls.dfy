/** The Secure GitHub profile on the calls themselves: tool names and arguments in,
    what reaches GitHub out. */
module SecureGithubCalls {
  import opened Text
  import opened Verdicts
  import opened Policy
  import opened Pipeline
  import opened PipelineLaws
  import opened SecureGithub
  import opened SecureGithubLaws

  // --- Names and arguments as written ---------------------------------------------------------

  /** The call names tool, with white space around it and the profile prefix or not. */
  ghost predicate Calls(written: string, name: string) {
    exists pre, post :: Blank(pre) && Blank(post) && (written == pre + name + post || written == pre + ("github." + name) + post)
  }

  lemma NormalizeExact(written: string, name: string)
    requires Calls(written, name) && name != "" && Tight(name) && !("github." <= name)
    ensures NormalizeToolName(written) == name
  {
    var pre, post :| Blank(pre) && Blank(post) && (written == pre + name + post || written == pre + ("github." + name) + post);
    if written == pre + name + post {
      TrimExact(pre, name, post);
    } else {
      var full := "github." + name;
      assert full[0] == 'g' && full[|full| - 1] == name[|name| - 1];
      TrimExact(pre, full, post);
      assert "github." <= full && full[7..] == name;
    }
  }

  lemma ToolTextIsName(t: Tool)
    ensures ToolText(t) != "" && Tight(ToolText(t)) && !("github." <= ToolText(t))
  {
    var s := ToolText(t);
    assert s[0] in {'g', 'c', 'p', 'm'} && s[|s| - 1] in {'e', 't', 's'};
    if s[0] == 'g' {
      assert s[1] == 'e' && "github."[1] == 'i';
    }
  }

  /** A call that names a tool is classified as that tool. */
  lemma CalledToolParsed(written: string, t: Tool)
    requires Calls(written, ToolText(t))
    ensures ParseTool(written) == Some(t)
  {
    ToolTextIsName(t);
    NormalizeExact(written, ToolText(t));
    ParseToolExact(written, t);
  }

  /** The text of an argument: trimmed, and empty when the argument is missing. */
  ghost predicate ArgText(args: Args, key: string, text: string) {
    if key !in args then text == ""
    else
      match args[key]
      case Flag(on) => text == if on then "true" else "false"
      case TextArg(t) => Trims(t, text)
      case Printed(t) => Trims(t, text)
  }

  ghost predicate Trims(written: string, text: string) {
    Tight(text) && exists pre, post :: Blank(pre) && Blank(post) && written == pre + text + post
  }

  lemma ArgTextExact(args: Args, key: string, text: string)
    requires ArgText(args, key, text)
    ensures StringArg(args, key) == text
  {
    if key in args && !args[key].Flag? {
      var pre, post :| Blank(pre) && Blank(post) && args[key].text == pre + text + post;
      TrimExact(pre, text, post);
    }
  }

  /** A flag argument is on: true, or the text true, or for texts also yes. */
  ghost predicate IsOn(args: Args, key: string) {
    key in args &&
    match args[key]
    case Flag(on) => on
    case TextArg(t) => SameText(TrimSpace(t), "true", true) || SameText(TrimSpace(t), "yes", true)
    case Printed(t) => SameText(TrimSpace(t), "true", true)
  }

  lemma IsOnExact(args: Args, key: string)
    ensures BoolArg(args, key) <==> IsOn(args, key)
  {
    if key in args && !args[key].Flag? {
      EqualFoldExact(TrimSpace(args[key].text), "true");
      EqualFoldExact(TrimSpace(args[key].text), "yes");
    }
  }

  /** A call's own tool name and arguments go before those of its parameters. */
  lemma CallExact(call: ToolCall)
    ensures call.toolName != "" ==> CalledTool(call) == call.toolName
    ensures call.toolName == "" ==> CalledTool(call) == call.paramName
    ensures call.arguments != map[] ==> CalledArgs(call) == call.arguments
    ensures call.arguments == map[] ==> CalledArgs(call) == call.paramArguments
  {
  }

  // --- What a call's arguments say ---------------------------------------------------------------

  /** Nothing in the arguments names a sink other than a private repository. */
  ghost predicate AimsPrivate(args: Args) {
    if StringArg(args, "target_sink") != "" then StringArg(args, "target_sink") == "private_repo"
    else if StringArg(args, "sink") != "" then StringArg(args, "sink") == "private_repo"
    else "private" in args ==> IsOn(args, "private")
  }

  lemma SinkExact(args: Args)
    ensures SinkClass(args) == "private_repo" <==> AimsPrivate(args)
  {
    IsOnExact(args, "private");
    assert "public_repo" != "private_repo";
  }

  /** The source the arguments claim; empty when they claim none. */
  function ClaimedSource(args: Args): string {
    if StringArg(args, "source_class") != "" then StringArg(args, "source_class") else StringArg(args, "source")
  }

  /** The author belongs to the repository. */
  ghost predicate Insider(args: Args) {
    var association := StringArg(args, "author_association");
    || SameText(association, "MEMBER", true) || SameText(association, "OWNER", true) || SameText(association, "COLLABORATOR", true)
    || IsOn(args, "collaborator")
  }

  ghost predicate Outside(source: string) {
    source == "external_collaborator" || source == "public_resource"
  }

  /** A read brings in outside content: its arguments claim an outside source; or they
      claim none, and it reads an issue or pull request not written by an insider. */
  ghost predicate ReadsOutside(t: Tool, args: Args) {
    if ClaimedSource(args) != "" then Outside(ClaimedSource(args)) && t in {GetIssue, GetPullRequest, GetFileContents}
    else t in {GetIssue, GetPullRequest} && !Insider(args)
  }

  lemma SourceExact(args: Args, fallback: string)
    ensures SourceClass(args, fallback) ==
              if ClaimedSource(args) != "" then ClaimedSource(args)
              else if Insider(args) then "allowlisted_resource" else fallback
  {
    var association := StringArg(args, "author_association");
    EqualFoldExact(association, "MEMBER");
    EqualFoldExact(association, "OWNER");
    EqualFoldExact(association, "COLLABORATOR");
    IsOnExact(args, "collaborator");
  }

  /** Exactly which calls taint the session. */
  lemma TaintsExactly(t: Tool, args: Args)
    ensures ClassOf(t, args).taints <==> ReadsOutside(t, args)
  {
    SourceExact(args, "external_collaborator");
    SourceExact(args, "allowlisted_resource");
    assert !External("allowlisted_resource") && External("external_collaborator");
  }

  /** The tools that write repository content or merge. */
  ghost predicate Protected(t: Tool) {
    t in {CreateOrUpdateFile, PushFiles, MergePullRequest}
  }

  /** The profile's tools by name: three reads, two plain writes, three protected ones. */
  lemma ToolNames(t: Tool)
    ensures t in {GetIssue, GetPullRequest} <==> ToolText(t) in {"get_issue", "get_pull_request"}
    ensures t == GetFileContents <==> ToolText(t) == "get_file_contents"
    ensures t in {CreateIssue, CreatePullRequest} <==> ToolText(t) in {"create_issue", "create_pull_request"}
    ensures Protected(t) <==> ToolText(t) in {"create_or_update_file", "push_files", "merge_pull_request"}
  {
  }

  /** Exactly which calls are protected writes to a private repository. */
  lemma PrivateWriteExactly(t: Tool, args: Args, e: Envelope)
    requires e.kind == ClassOf(t, args)
    ensures PrivateWrite(e) <==> Protected(t) && AimsPrivate(args)
  {
    SinkExact(args);
  }

  // --- Who the call is about ------------------------------------------------------------------

  lemma FirstSetOfThree(a: string, b: string, c: string)
    ensures FirstSet([a, b, c]) == if a != "" then a else if b != "" then b else c
  {
    FirstSetOfTwo(b, c);
    assert [a, b, c][1..] == [b, c];
  }

  /** The session a call belongs to: its own field, then its argument, then the
      configured one. */
  lemma SessionExact(call: ToolCall, cfg: ProfileConfig)
    ensures SessionOf(call, cfg) ==
              if call.sessionId != "" then call.sessionId
              else if StringArg(CalledArgs(call), "session_id") != "" then StringArg(CalledArgs(call), "session_id")
              else cfg.sessionId
  {
    FirstSetOfThree(call.sessionId, StringArg(CalledArgs(call), "session_id"), cfg.sessionId);
  }

  /** The repository a call names: its arguments, each falling back to the configured
      part. */
  lemma RepositoryExact(args: Args, cfg: ProfileConfig)
    ensures OwnerOf(args, cfg) == if StringArg(args, "owner") != "" then StringArg(args, "owner") else cfg.owner
    ensures RepoOf(args, cfg) == if StringArg(args, "repo") != "" then StringArg(args, "repo") else cfg.repo
  {
    FirstSetOfTwo(StringArg(args, "owner"), cfg.owner);
    FirstSetOfTwo(StringArg(args, "repo"), cfg.repo);
  }

  /** The session a call finds is bound, and to another repository than the call's. */
  ghost predicate BoundElsewhere(s: Session, args: Args, cfg: ProfileConfig) {
    !(s.owner == "" && s.repo == "") && !(s.owner == OwnerOf(args, cfg) && s.repo == RepoOf(args, cfg))
  }

  lemma AdmittedEnvelope(c: ProfileConfig, store: Sessions, call: ToolCall, t: Tool)
    ensures var cfg, args := WithDefaults(c), CalledArgs(call);
            var e := EnvelopeOf(call, ClassOf(t, args), cfg, Admitted(cfg, store, call));
            && e.owner == OwnerOf(args, cfg) && e.repo == RepoOf(args, cfg) && e.sessionId == SessionOf(call, cfg)
            && (e.violation <==> BoundElsewhere(Lookup(store, SessionOf(call, cfg)), args, cfg))
            && (e.tainted <==> Lookup(store, SessionOf(call, cfg)).tainted || IsOn(args, "tainted"))
  {
    IsOnExact(CalledArgs(call), "tainted");
    OwnerIsSet(CalledArgs(call), c);
  }

  // --- What the pipeline is asked -------------------------------------------------------------------

  /** The risk of each tool. */
  function RiskText(t: Tool): string {
    if t in {GetIssue, GetPullRequest, GetFileContents} then "R0"
    else if t in {CreateIssue, CreatePullRequest} then "W0"
    else if t == MergePullRequest then "W2"
    else "W1"
  }

  /** The source of a call that claims none: an issue or pull request comes from
      outside, a file from the repository, a write from the agent. */
  function DefaultSource(t: Tool): string {
    if t in {GetIssue, GetPullRequest} then "external_collaborator"
    else if t == GetFileContents then "allowlisted_resource"
    else "agent_generated"
  }

  /** Who a call is from, and which call it is: its own fields first, then its
      arguments, then the configured defaults. */
  lemma IdentityExact(call: ToolCall, kind: Classification, cfg: ProfileConfig, s: Session)
    ensures var req, args := RequestOf(EnvelopeOf(call, kind, cfg, s)), CalledArgs(call);
            && req.transport == "mcp" && req.toolName == req.action == "github." + ToolText(kind.tool)
            && req.agentId == (if call.agentId != "" then call.agentId
                               else if StringArg(args, "agent_id") != "" then StringArg(args, "agent_id") else cfg.agentId)
            && req.tenantId == (if call.tenantId != "" then call.tenantId
                                else if StringArg(args, "tenant_id") != "" then StringArg(args, "tenant_id") else cfg.tenantId)
            && req.requestId == (if StringArg(args, "request_id") != "" then StringArg(args, "request_id") else call.generatedId)
  {
    var args := CalledArgs(call);
    FirstSetOfThree(call.agentId, StringArg(args, "agent_id"), cfg.agentId);
    FirstSetOfThree(call.tenantId, StringArg(args, "tenant_id"), cfg.tenantId);
    FirstSetOfTwo(StringArg(args, "request_id"), call.generatedId);
  }

  lemma Undecided(e: Envelope, key: string)
    requires key in Descriptive(e) && key !in Decisive(e)
    ensures key in RequestOf(e).arguments && RequestOf(e).arguments[key] == Descriptive(e)[key]
  {
  }

  lemma Descriptions(e: Envelope)
    ensures "risk_class" in Descriptive(e) && Descriptive(e)["risk_class"] == CapabilityText(e.kind.capability)
    ensures "mutation_class" in Descriptive(e) && Descriptive(e)["mutation_class"] == MutationText(e.kind.capability)
    ensures "source_class" in Descriptive(e) && Descriptive(e)["source_class"] == e.kind.source
    ensures "target_repo" in Descriptive(e) && Descriptive(e)["target_repo"] == e.owner + "/" + e.repo
  {
  }

  lemma RiskOfTool(t: Tool, args: Args)
    ensures CapabilityText(ClassOf(t, args).capability) == RiskText(t)
  {
  }

  /** The risk custom rules read is the tool's. */
  lemma RiskAsked(e: Envelope, t: Tool, args: Args)
    requires e.kind == ClassOf(t, args)
    ensures "risk_class" in RequestOf(e).arguments && RequestOf(e).arguments["risk_class"] == RiskText(t)
  {
    RiskOfTool(t, args);
    Descriptions(e);
    Undecided(e, "risk_class");
  }

  lemma SourceOfTool(t: Tool, args: Args)
    ensures ClassOf(t, args).source == SourceClass(args, DefaultSource(t))
  {
  }

  /** The source they read is the one the arguments claim, an insider's, or the
      tool's. */
  lemma SourceAsked(e: Envelope, t: Tool, args: Args)
    requires e.kind == ClassOf(t, args)
    ensures var asked := RequestOf(e).arguments;
            && "source_class" in asked
            && asked["source_class"] == (if ClaimedSource(args) != "" then ClaimedSource(args)
                                         else if Insider(args) then "allowlisted_resource" else DefaultSource(t))
  {
    SourceExact(args, DefaultSource(t));
    SourceOfTool(t, args);
    Descriptions(e);
    Undecided(e, "source_class");
  }

  /** What each tool changes. */
  function ChangeText(t: Tool): string {
    if t == MergePullRequest then "merge_or_release"
    else if t in {CreateOrUpdateFile, PushFiles} then "private_repo_content_write"
    else if t in {CreateIssue, CreatePullRequest} then "issue_or_pr_create"
    else "none"
  }

  lemma ChangeOfTool(t: Tool, args: Args)
    ensures MutationText(ClassOf(t, args).capability) == ChangeText(t)
  {
  }

  /** So is what the tool changes. */
  lemma MutationAsked(e: Envelope, t: Tool, args: Args)
    requires e.kind == ClassOf(t, args)
    ensures "mutation_class" in RequestOf(e).arguments
         && RequestOf(e).arguments["mutation_class"] == ChangeText(t)
  {
    ChangeOfTool(t, args);
    Descriptions(e);
    Undecided(e, "mutation_class");
  }

  /** The taint sources are passed on exactly when there are any. */
  lemma TaintAsked(e: Envelope)
    ensures "taint_source" in RequestOf(e).arguments <==> e.taintSources != []
    ensures e.taintSources != [] ==> RequestOf(e).arguments["taint_source"] == Join(e.taintSources, ",")
  {
    if e.taintSources != [] {
      Undecided(e, "taint_source");
    }
  }

  /** And the repository is the call's. */
  lemma TargetAsked(e: Envelope)
    ensures "target_repo" in RequestOf(e).arguments && RequestOf(e).arguments["target_repo"] == e.owner + "/" + e.repo
  {
    Descriptions(e);
    Undecided(e, "target_repo");
  }

  /** The profile's settings, each with its default; one repository per session is
      always on, and fixture mode is whatever live mode is not. */
  lemma DefaultsTold(c: ProfileConfig)
    ensures var d := WithDefaults(c);
            && d.tenantId == (if c.tenantId == "" then "fixture-tenant" else c.tenantId)
            && d.agentId == (if c.agentId == "" then "secure-github-fixture-agent" else c.agentId)
            && d.sessionId == (if c.sessionId == "" then "fixture-session" else c.sessionId)
            && d.owner == (if c.owner == "" then "fixture-org" else c.owner)
            && d.repo == (if c.repo == "" then "fixture-private-repo" else c.repo)
            && d.oneRepoPerSession && d.liveMode == c.liveMode && d.fixtureMode == !c.liveMode
    ensures forall store: Sessions :: Lookup(store, "") == Lookup(store, "fixture-session")
  {
    FirstSetOfTwo(c.tenantId, "fixture-tenant");
    FirstSetOfTwo(c.agentId, "secure-github-fixture-agent");
    FirstSetOfTwo(c.sessionId, "fixture-session");
    FirstSetOfTwo(c.owner, "fixture-org");
    FirstSetOfTwo(c.repo, "fixture-private-repo");
  }

  /** The sources a call is judged under: those of its session, in order, and one it
      declares itself. */
  lemma SourcesTold(call: ToolCall, kind: Classification, cfg: ProfileConfig, s: Session)
    ensures var args, told := CalledArgs(call), EnvelopeOf(call, kind, cfg, s).taintSources;
            var declared := if StringArg(args, "taint_source") != "" then StringArg(args, "taint_source") else kind.taintSource;
            && s.sources <= told
            && forall x :: x in told <==> x in s.sources || (IsOn(args, "tainted") && declared != "" && x == declared)
  {
    IsOnExact(CalledArgs(call), "tainted");
    FirstSetOfTwo(StringArg(CalledArgs(call), "taint_source"), kind.taintSource);
  }

  // --- Exactly which calls reach GitHub --------------------------------------------------------------

  lemma SupportedDispatches(cfg: ProfileConfig, p: Setup, store: Sessions, call: ToolCall, ok: bool, t: Tool)
    requires Calls(CalledTool(call), ToolText(t))
    ensures Govern(cfg, p, store, call, ok).1 == Dispatch(p, EnvelopeOf(call, ClassOf(t, CalledArgs(call)), cfg, Admitted(cfg, store, call)), ok)
  {
    CalledToolParsed(CalledTool(call), t);
  }

  /** The profile's own pipeline, on the call and the session it finds: a supported
      call goes through exactly when its session is not bound elsewhere and it is not
      a protected write to a private repository under taint. */
  lemma {:induction false} ForwardedExactly(c: ProfileConfig, env: Engines, store: Sessions, call: ToolCall, ok: bool, t: Tool)
    requires GlobsGithub(env) && Calls(CalledTool(call), ToolText(t))
    ensures var cfg, args := WithDefaults(c), CalledArgs(call);
            var s := Lookup(store, SessionOf(call, cfg));
            Upstreamed(Govern(cfg, PreviewSetup(env), store, call, ok).1)
            <==> && !BoundElsewhere(s, args, cfg)
                 && !((s.tainted || IsOn(args, "tainted")) && Protected(t) && AimsPrivate(args))
  {
    var cfg, args := WithDefaults(c), CalledArgs(call);
    SupportedDispatches(cfg, PreviewSetup(env), store, call, ok, t);
    AdmittedEnvelope(c, store, call, t);
    var e := EnvelopeOf(call, ClassOf(t, args), cfg, Admitted(cfg, store, call));
    PrivateWriteExactly(t, args, e);
    PreviewExact(env, e, ok);
  }

  /** What one supported call leaves behind: an unbound session is bound to the call's
      repository, its taint grows exactly by a served read of outside content, and
      every other session is as it was. */
  lemma {:induction false} SessionAfter(c: ProfileConfig, p: Setup, store: Sessions, call: ToolCall, ok: bool, t: Tool, other: string)
    requires Calls(CalledTool(call), ToolText(t))
    ensures var cfg, args := WithDefaults(c), CalledArgs(call);
            var r := Govern(cfg, p, store, call, ok);
            var before, after := Lookup(store, SessionOf(call, cfg)), Lookup(r.0, SessionOf(call, cfg));
            && (if before.owner == "" && before.repo == "" then after.owner == OwnerOf(args, cfg) && after.repo == RepoOf(args, cfg)
                else after.owner == before.owner && after.repo == before.repo)
            && (after.tainted <==> before.tainted || (r.1.Served? && ReadsOutside(t, args)))
            && (SessionKey(other) != SessionKey(SessionOf(call, cfg)) ==> Lookup(r.0, other) == Lookup(store, other))
  {
    var cfg, args := WithDefaults(c), CalledArgs(call);
    CalledToolParsed(CalledTool(call), t);
    var e := EnvelopeOf(call, ClassOf(t, args), cfg, Admitted(cfg, store, call));
    DispatchKeeps(p, e, ok);
    AdmissionSession(cfg, store, call, Dispatch(p, e, ok), t, other);
  }

  lemma AdmissionSession(cfg: ProfileConfig, store: Sessions, call: ToolCall, o: Outcome, t: Tool, other: string)
    requires !o.Unsupported? && o.envelope.kind == ClassOf(t, CalledArgs(call)) && o.envelope.sessionId == SessionOf(call, cfg)
    ensures var args := CalledArgs(call);
            var end := AfterOutcome(store[SessionKey(SessionOf(call, cfg)) := Admitted(cfg, store, call)], o);
            var before, after := Lookup(store, SessionOf(call, cfg)), Lookup(end, SessionOf(call, cfg));
            && (if before.owner == "" && before.repo == "" then after.owner == OwnerOf(args, cfg) && after.repo == RepoOf(args, cfg)
                else after.owner == before.owner && after.repo == before.repo)
            && (after.tainted <==> before.tainted || (o.Served? && ReadsOutside(t, args)))
            && (SessionKey(other) != SessionKey(SessionOf(call, cfg)) ==> Lookup(end, other) == Lookup(store, other))
  {
    TaintsExactly(t, CalledArgs(call));
    TaintingReads(t, CalledArgs(call));
    AfterOutcomeSession(store[SessionKey(SessionOf(call, cfg)) := Admitted(cfg, store, call)], o, other);
  }

  lemma AfterOutcomeSession(store: Sessions, o: Outcome, other: string)
    requires !o.Unsupported? && (o.envelope.kind.taints ==> o.envelope.kind.taintSource != "")
    ensures var id := o.envelope.sessionId;
            var before, after := Lookup(store, id), Lookup(AfterOutcome(store, o), id);
            && after.owner == before.owner && after.repo == before.repo
            && (after.tainted <==> before.tainted || (o.Served? && o.envelope.kind.taints))
            && (SessionKey(other) != SessionKey(id) ==> Lookup(AfterOutcome(store, o), other) == Lookup(store, other))
  {
  }

  /** A tool outside the profile never reaches GitHub and leaves every session alone. */
  lemma UnsupportedRefused(cfg: ProfileConfig, p: Setup, store: Sessions, call: ToolCall, ok: bool)
    requires forall t: Tool :: NormalizeToolName(CalledTool(call)) != ToolText(t)
    ensures Govern(cfg, p, store, call, ok) == (store, Unsupported)
  {
    var t := ParseTool(CalledTool(call));
    if t.Some? {
      ParseToolExact(CalledTool(call), t.value);
    }
  }

  /** The outcome of a supported call keeps its classification. */
  lemma OutcomeKind(c: ProfileConfig, p: Setup, store: Sessions, call: ToolCall, ok: bool, t: Tool)
    requires Calls(CalledTool(call), ToolText(t))
    ensures var o := Govern(WithDefaults(c), p, store, call, ok).1;
            && !o.Unsupported? && o.envelope.kind == ClassOf(t, CalledArgs(call))
            && o.envelope.sessionId == SessionOf(call, WithDefaults(c))
  {
    CalledToolParsed(CalledTool(call), t);
    DispatchKeeps(p, EnvelopeOf(call, ClassOf(t, CalledArgs(call)), WithDefaults(c), Admitted(WithDefaults(c), store, call)), ok);
  }

  /** On the calls themselves, over every run: once a session's read of outside content
      was served, no later call of that session to create_or_update_file, push_files
      or merge_pull_request reaches GitHub, unless its arguments name a sink other
      than a private repository. */
  lemma {:induction false} NoProtectedToolAfterOutsideRead(c: ProfileConfig, p: Setup, start: Sessions, steps: seq<Step>, i: nat, j: nat, t: Tool, u: Tool)
    requires Guarded(p) && i < j < |steps|
    requires Calls(CalledTool(steps[i].call), ToolText(t)) && Calls(CalledTool(steps[j].call), ToolText(u))
    requires SessionOf(steps[i].call, WithDefaults(c)) == SessionOf(steps[j].call, WithDefaults(c))
    requires ReadsOutside(t, CalledArgs(steps[i].call)) && Protected(u) && AimsPrivate(CalledArgs(steps[j].call))
    ensures OutcomeAt(WithDefaults(c), p, start, steps, i).Served? ==> !Upstreamed(OutcomeAt(WithDefaults(c), p, start, steps, j))
  {
    var cfg := WithDefaults(c);
    OutcomeKind(c, p, StoreAfter(cfg, p, start, steps[..i]), steps[i].call, steps[i].ok, t);
    OutcomeKind(c, p, StoreAfter(cfg, p, start, steps[..j]), steps[j].call, steps[j].ok, u);
    TaintsExactly(t, CalledArgs(steps[i].call));
    PrivateWriteExactly(u, CalledArgs(steps[j].call), OutcomeAt(cfg, p, start, steps, j).envelope);
    NoPrivateWriteAfterTaint(c, p, start, steps, i, j);
  }

  // --- Taint is history ---------------------------------------------------------------------------------

  /** What a tainted session remembers of a read. */
  function SourceLabel(t: Tool): string {
    match t
    case GetIssue => "github.issue_body"
    case GetPullRequest => "github.pull_request_body"
    case GetFileContents => "github.file_contents"
    case _ => ""
  }

  /** No text twice, and none empty. */
  ghost predicate ProperSources(sources: seq<string>) {
    "" !in sources && forall i, j :: 0 <= i < j < |sources| ==> sources[i] != sources[j]
  }

  /** The call is a read of outside content, remembered under that name. */
  ghost predicate Brings(call: ToolCall, source: string) {
    exists t: Tool :: NormalizeToolName(CalledTool(call)) == ToolText(t) && ReadsOutside(t, CalledArgs(call)) && source == SourceLabel(t)
  }

  /** A call of session id that ended in o was a served read of outside content. */
  ghost predicate BroughtBy(o: Outcome, call: ToolCall, cfg: ProfileConfig, id: string, source: string) {
    o.Served? && SessionKey(SessionOf(call, cfg)) == SessionKey(id) && Brings(call, source)
  }

  /** The outcomes of a run. */
  ghost function Outcomes(cfg: ProfileConfig, p: Setup, start: Sessions, steps: seq<Step>): (os: seq<Outcome>)
    ensures |os| == |steps|
    ensures forall i :: 0 <= i < |steps| ==> os[i] == OutcomeAt(cfg, p, start, steps, i)
  {
    seq(|steps|, i requires 0 <= i < |steps| => OutcomeAt(cfg, p, start, steps, i))
  }

  /** Some served read of session id brought in outside content remembered as source. */
  ghost predicate Brought(os: seq<Outcome>, steps: seq<Step>, cfg: ProfileConfig, id: string, source: string)
    requires |os| == |steps|
  {
    exists i :: 0 <= i < |steps| && BroughtBy(os[i], steps[i].call, cfg, id, source)
  }

  lemma LabelTold(t: Tool, args: Args)
    ensures ClassOf(t, args).taints ==> ClassOf(t, args).taintSource == SourceLabel(t) != ""
  {
  }

  lemma AppendUniqueKeeps(sources: seq<string>, source: string)
    requires ProperSources(sources) && source != ""
    ensures ProperSources(AppendUnique(sources, source))
    ensures forall x :: x in AppendUnique(sources, source) <==> x in sources || x == source
  {
  }

  /** What one call does to the taint of any session. */
  lemma GovernTaints(cfg: ProfileConfig, p: Setup, store: Sessions, call: ToolCall, ok: bool, id: string, t: Tool)
    requires ParseTool(CalledTool(call)) == Some(t)
    ensures var r := Govern(cfg, p, store, call, ok);
            !r.1.Unsupported? && TaintGrows(Lookup(store, id), Lookup(r.0, id), r.1.Served? && SessionKey(SessionOf(call, cfg)) == SessionKey(id), t, CalledArgs(call))
  {
    var args := CalledArgs(call);
    var s := Admitted(cfg, store, call);
    var e := EnvelopeOf(call, ClassOf(t, args), cfg, s);
    DispatchKeeps(p, e, ok);
    AdmissionTaints(cfg, store, call, Dispatch(p, e, ok), id, t);
  }

  /** A read in its own session taints it with its label; nothing else does. */
  ghost predicate TaintGrows(before: Session, after: Session, own: bool, t: Tool, args: Args) {
    if own && ReadsOutside(t, args) then after.tainted && after.sources == AppendUnique(before.sources, SourceLabel(t))
    else after.tainted == before.tainted && after.sources == before.sources
  }

  lemma AdmissionTaints(cfg: ProfileConfig, store: Sessions, call: ToolCall, o: Outcome, id: string, t: Tool)
    requires !o.Unsupported? && o.envelope.kind == ClassOf(t, CalledArgs(call)) && o.envelope.sessionId == SessionOf(call, cfg)
    ensures var after := AfterOutcome(store[SessionKey(SessionOf(call, cfg)) := Admitted(cfg, store, call)], o);
            TaintGrows(Lookup(store, id), Lookup(after, id), o.Served? && SessionKey(SessionOf(call, cfg)) == SessionKey(id), t, CalledArgs(call))
  {
    TaintsExactly(t, CalledArgs(call));
    LabelTold(t, CalledArgs(call));
    StoredTaint(store[SessionKey(SessionOf(call, cfg)) := Admitted(cfg, store, call)], o, id);
  }

  lemma StoredTaint(store: Sessions, o: Outcome, id: string)
    requires !o.Unsupported? && (o.envelope.kind.taints ==> o.envelope.kind.taintSource != "")
    ensures var before, after := Lookup(store, id), Lookup(AfterOutcome(store, o), id);
            if o.Served? && SessionKey(o.envelope.sessionId) == SessionKey(id) && o.envelope.kind.taints
            then after.tainted && after.sources == AppendUnique(before.sources, o.envelope.kind.taintSource)
            else after == before
  {
  }

  /** The envelope a call ends with says what the call was judged under, and for a
      served read of outside content also what that read brought in. */
  lemma OutcomeReports(p: Setup, e: Envelope, ok: bool, t: Tool, args: Args)
    requires e.kind == ClassOf(t, args)
    ensures var o := Dispatch(p, e, ok);
            if o.Served? && ReadsOutside(t, args)
            then o.envelope.tainted && e.taintSources <= o.envelope.taintSources && SourceLabel(t) in o.envelope.taintSources
            else !o.Unsupported? && o.envelope == e
  {
    TaintsExactly(t, args);
    LabelTold(t, args);
    DispatchReports(p, e, ok);
  }

  lemma DispatchReports(p: Setup, e: Envelope, ok: bool)
    ensures var o := Dispatch(p, e, ok);
            && !o.Unsupported?
            && o.envelope == if o.Served? && e.kind.taints
                             then e.(tainted := true, taintSources := AppendUnique(e.taintSources, e.kind.taintSource)) else e
  {
  }

  ghost predicate SourceGrows(before: Session, after: Session, own: bool, call: ToolCall, source: string) {
    && ProperSources(after.sources)
    && (source in after.sources <==> source in before.sources || (own && Brings(call, source)))
    && (after.tainted <==> before.tainted || (own && exists x :: Brings(call, x)))
  }

  lemma SourcesGrow(before: Session, after: Session, own: bool, call: ToolCall, t: Tool, source: string)
    requires ParseTool(CalledTool(call)) == Some(t) && ProperSources(before.sources) && TaintGrows(before, after, own, t, CalledArgs(call))
    ensures SourceGrows(before, after, own, call, source)
  {
    BringsOne(call, t);
    if ReadsOutside(t, CalledArgs(call)) {
      assert Brings(call, SourceLabel(t));
      AppendUniqueKeeps(before.sources, SourceLabel(t));
    }
  }

  /** One call adds its source to its session's exactly when it is a served read of
      outside content. */
  lemma CallBrings(cfg: ProfileConfig, p: Setup, store: Sessions, call: ToolCall, ok: bool, id: string, source: string)
    requires ProperSources(Lookup(store, id).sources)
    ensures var r := Govern(cfg, p, store, call, ok);
            SourceGrows(Lookup(store, id), Lookup(r.0, id), r.1.Served? && SessionKey(SessionOf(call, cfg)) == SessionKey(id), call, source)
  {
    var parsed := ParseTool(CalledTool(call));
    if parsed.Some? {
      var r := Govern(cfg, p, store, call, ok);
      GovernTaints(cfg, p, store, call, ok, id, parsed.value);
      SourcesGrow(Lookup(store, id), Lookup(r.0, id), r.1.Served? && SessionKey(SessionOf(call, cfg)) == SessionKey(id), call, parsed.value, source);
    }
  }

  lemma BringsOne(call: ToolCall, t: Tool)
    requires ParseTool(CalledTool(call)) == Some(t)
    ensures forall x :: Brings(call, x) <==> ReadsOutside(t, CalledArgs(call)) && x == SourceLabel(t)
  {
    ParseToolExact(CalledTool(call), t);
    forall u: Tool
      ensures NormalizeToolName(CalledTool(call)) == ToolText(u) <==> u == t
    {
      ParseToolExact(CalledTool(call), u);
    }
  }

  lemma BroughtStep(os: seq<Outcome>, o: Outcome, steps: seq<Step>, last: Step, cfg: ProfileConfig, id: string, source: string)
    requires |os| == |steps|
    ensures Brought(os + [o], steps + [last], cfg, id, source)
       <==> Brought(os, steps, cfg, id, source) || BroughtBy(o, last.call, cfg, id, source)
  {
    var ps, ts := os + [o], steps + [last];
    if Brought(os, steps, cfg, id, source) {
      var i :| 0 <= i < |steps| && BroughtBy(os[i], steps[i].call, cfg, id, source);
      assert BroughtBy(ps[i], ts[i].call, cfg, id, source);
    }
    if BroughtBy(o, last.call, cfg, id, source) {
      assert BroughtBy(ps[|os|], ts[|os|].call, cfg, id, source);
    }
  }

  lemma OutcomeInPrefix(cfg: ProfileConfig, p: Setup, start: Sessions, steps: seq<Step>, last: Step, i: nat)
    requires i < |steps|
    ensures OutcomeAt(cfg, p, start, steps + [last], i) == OutcomeAt(cfg, p, start, steps, i)
  {
    assert (steps + [last])[..i] == steps[..i];
  }

  lemma OutcomesStep(cfg: ProfileConfig, p: Setup, start: Sessions, steps: seq<Step>, last: Step)
    ensures Outcomes(cfg, p, start, steps + [last])
         == Outcomes(cfg, p, start, steps) + [Govern(cfg, p, StoreAfter(cfg, p, start, steps), last.call, last.ok).1]
  {
    var all := steps + [last];
    forall i | 0 <= i < |steps|
      ensures OutcomeAt(cfg, p, start, all, i) == OutcomeAt(cfg, p, start, steps, i)
    {
      OutcomeInPrefix(cfg, p, start, steps, last, i);
    }
    assert all[..|steps|] == steps;
  }

  /** The taint of a session, whose sources are proper, is what its reads brought in. */
  ghost predicate IsHistory(s: Session, os: seq<Outcome>, steps: seq<Step>, cfg: ProfileConfig, id: string, source: string)
    requires |os| == |steps|
  {
    && ProperSources(s.sources)
    && (source in s.sources <==> Brought(os, steps, cfg, id, source))
    && (s.tainted <==> exists x :: Brought(os, steps, cfg, id, x))
  }

  lemma HistoryGrows(before: Session, after: Session, os: seq<Outcome>, o: Outcome, steps: seq<Step>, last: Step, cfg: ProfileConfig, id: string, source: string)
    requires |os| == |steps| && IsHistory(before, os, steps, cfg, id, source)
    requires SourceGrows(before, after, o.Served? && SessionKey(SessionOf(last.call, cfg)) == SessionKey(id), last.call, source)
    ensures IsHistory(after, os + [o], steps + [last], cfg, id, source)
  {
    forall x
      ensures Brought(os + [o], steps + [last], cfg, id, x) <==> Brought(os, steps, cfg, id, x) || BroughtBy(o, last.call, cfg, id, x)
    {
      BroughtStep(os, o, steps, last, cfg, id, x);
    }
    var own := o.Served? && SessionKey(SessionOf(last.call, cfg)) == SessionKey(id);
    if own && exists x :: Brings(last.call, x) {
      var x :| Brings(last.call, x);
      assert Brought(os + [o], steps + [last], cfg, id, x);
    }
    if exists x :: Brought(os, steps, cfg, id, x) {
      var x :| Brought(os, steps, cfg, id, x);
      assert Brought(os + [o], steps + [last], cfg, id, x);
    }
  }

  lemma StepBrings(cfg: ProfileConfig, p: Setup, start: Sessions, steps: seq<Step>, last: Step, id: string, source: string) returns (o: Outcome)
    requires ProperSources(Lookup(StoreAfter(cfg, p, start, steps), id).sources)
    ensures Outcomes(cfg, p, start, steps + [last]) == Outcomes(cfg, p, start, steps) + [o]
    ensures SourceGrows(Lookup(StoreAfter(cfg, p, start, steps), id), Lookup(StoreAfter(cfg, p, start, steps + [last]), id),
                        o.Served? && SessionKey(SessionOf(last.call, cfg)) == SessionKey(id), last.call, source)
  {
    var store := StoreAfter(cfg, p, start, steps);
    o := Govern(cfg, p, store, last.call, last.ok).1;
    CallBrings(cfg, p, store, last.call, last.ok, id, source);
    OutcomesStep(cfg, p, start, steps, last);
    assert (steps + [last])[..|steps|] == steps;
  }

  ghost predicate RunHistory(cfg: ProfileConfig, p: Setup, steps: seq<Step>, id: string, source: string) {
    IsHistory(Lookup(StoreAfter(cfg, p, map[], steps), id), Outcomes(cfg, p, map[], steps), steps, cfg, id, source)
  }

  lemma RunHistoryStep(cfg: ProfileConfig, p: Setup, steps: seq<Step>, last: Step, id: string, source: string)
    requires RunHistory(cfg, p, steps, id, source)
    ensures RunHistory(cfg, p, steps + [last], id, source)
  {
    var o := StepBrings(cfg, p, map[], steps, last, id, source);
    HistoryGrows(Lookup(StoreAfter(cfg, p, map[], steps), id), Lookup(StoreAfter(cfg, p, map[], steps + [last]), id),
                 Outcomes(cfg, p, map[], steps), o, steps, last, cfg, id, source);
  }

  lemma RunHistoryStart(cfg: ProfileConfig, p: Setup, id: string, source: string)
    ensures RunHistory(cfg, p, [], id, source)
  {
  }

  /** Over every run from an empty store: a session remembers a source exactly when a
      served read of its own brought it in, each source once, and it is tainted
      exactly when some read did. */
  lemma {:induction false} TaintIsHistory(cfg: ProfileConfig, p: Setup, steps: seq<Step>, id: string, source: string)
    ensures IsHistory(Lookup(StoreAfter(cfg, p, map[], steps), id), Outcomes(cfg, p, map[], steps), steps, cfg, id, source)
  {
    var n := 0;
    RunHistoryStart(cfg, p, id, source);
    while n < |steps|
      invariant n <= |steps| && RunHistory(cfg, p, steps[..n], id, source)
    {
      RunHistoryStep(cfg, p, steps[..n], steps[n], id, source);
      assert steps[..n] + [steps[n]] == steps[..n + 1];
      n := n + 1;
    }
    assert steps[..n] == steps;
  }
}
