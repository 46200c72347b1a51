/** Static policy rules and their matchers (governance/policy.go). */
module Policy {
  import opened Text
  import opened Verdicts

  /** A governed request.  Argument values are their printed texts. */
  datatype Request = Request(
    requestId: string,
    transport: string,
    agentId: string,
    tenantId: string,
    toolName: string,
    action: string,
    command: string,
    code: string,
    arguments: map<string, string>)

  /** Path globs and regular expressions, as the libraries decide them: any
      deterministic predicates.  regex is None when the pattern does not
      compile. */
  datatype Engines = Engines(
    glob: (string, string) -> bool,
    regex: (string, string) -> Option<bool>)

  datatype Matcher = Matcher(
    kind: string,
    field: string,
    contains: string,
    value: string,
    values: seq<string>,
    regex: string,
    caseInsensitive: bool)

  datatype Rule = Rule(
    name: string,
    tool: string,
    action: Action,
    reason: string,
    transport: string,
    mode: DecisionMode,
    tenantScope: seq<string>,
    agentScope: seq<string>,
    first: Option<Matcher>,
    conditions: seq<Matcher>,
    policyFile: string)

  function FirstNonEmpty(values: seq<string>): string {
    if values == [] then ""
    else if TrimSpace(values[0]) != "" then values[0]
    else FirstNonEmpty(values[1..])
  }

  predicate EqualString(a: string, b: string, insensitive: bool) {
    if insensitive then EqualFold(a, b) else a == b
  }

  predicate ContainsString(haystack: string, needle: string, insensitive: bool) {
    if insensitive then Contains(Lower(haystack), Lower(needle)) else Contains(haystack, needle)
  }

  predicate MatchesAny(value: string, values: seq<string>, insensitive: bool) {
    exists i :: 0 <= i < |values| && EqualString(value, values[i], insensitive)
  }

  /** An empty value is never in a list: scoping fails closed without identity. */
  predicate InList(value: string, values: seq<string>) {
    value != "" && MatchesAny(value, values, true)
  }

  function MatchValues(m: Matcher): seq<string> {
    m.values + (if m.value != "" then [m.value] else []) + (if m.contains != "" then [m.contains] else [])
  }

  function Argument(req: Request, key: string): Option<string> {
    if key in req.arguments then Some(req.arguments[key]) else None
  }

  /** The value a matcher's field selects; None when the request lacks it. */
  function RequestField(req: Request, field: string): Option<string> {
    if field == "tool" || field == "tool_name" then Some(req.toolName)
    else if field == "action" then Some(req.action)
    else if field == "agent_id" then Some(req.agentId)
    else if field == "tenant_id" then Some(req.tenantId)
    else if field == "risk_class" || field == "sql.class" then
      (if "sql_class" in req.arguments then Argument(req, "sql_class") else Argument(req, "risk_class"))
    else if field == "transport" then Some(req.transport)
    else if field == "command" then Some(req.command)
    else if field == "code" then Some(req.code)
    else if (field == "input.text" || field == "arguments.text") && "sql" in req.arguments then Argument(req, "sql")
    else if HasPrefix(field, "arguments.") then Argument(req, field[|"arguments."|..])
    else if HasPrefix(field, "input.") then Argument(req, field[|"input."|..])
    else None
  }

  predicate RegexHits(m: Matcher, req: Request, env: Engines) {
    var pattern := FirstNonEmpty([m.regex, m.value, m.contains]);
    if pattern == "" || m.field == "" then false
    else
      var haystack := RequestField(req, m.field);
      if haystack.None? then false
      else
        var hit := env.regex(if m.caseInsensitive then "(?i)" + pattern else pattern, haystack.value);
        // A pattern that does not compile is a policy fault and counts as hit.
        hit.None? || hit.value
  }

  predicate FieldHits(m: Matcher, kind: string, req: Request) {
    var needle := FirstNonEmpty([m.contains, m.value]);
    if needle == "" || m.field == "" then false
    else
      var haystack := RequestField(req, m.field);
      if haystack.None? then false
      else if kind == "contains" then ContainsString(haystack.value, needle, m.caseInsensitive)
      else if kind == "not_contains" then !ContainsString(haystack.value, needle, m.caseInsensitive)
      else if kind == "equals" then EqualString(haystack.value, needle, m.caseInsensitive)
      else if kind == "not_equals" then !EqualString(haystack.value, needle, m.caseInsensitive)
      else false
  }

  predicate Matches(m: Matcher, req: Request, env: Engines) {
    var trimmed := Lower(TrimSpace(m.kind));
    var kind := if trimmed == "" then "contains" else trimmed;
    if kind == "transport_is" then
      var needle := FirstNonEmpty([m.value, m.contains]);
      needle != "" && EqualFold(needle, req.transport)
    else if kind == "agent_in" then InList(req.agentId, MatchValues(m))
    else if kind == "agent_not_in" then !InList(req.agentId, MatchValues(m))
    else if kind == "ast_class" then
      var got := RequestField(req, if m.field == "" then "arguments.sql_class" else m.field);
      got.Some? && MatchesAny(got.value, MatchValues(m), true)
    else if kind == "regex" then RegexHits(m, req, env)
    else FieldHits(m, kind, req)
  }

  predicate ToolMatches(pattern: string, tool: string, env: Engines) {
    pattern == "" || pattern == "*" || pattern == tool || env.glob(pattern, tool)
  }

  /** The rule fires when tool, transport, scopes and every matcher hold. */
  predicate MatchesRequest(r: Rule, req: Request, env: Engines) {
    && ToolMatches(r.tool, req.toolName, env)
    && (r.transport == "" || EqualFold(r.transport, req.transport))
    && (r.tenantScope == [] || InList(req.tenantId, r.tenantScope))
    && (r.agentScope == [] || InList(req.agentId, r.agentScope))
    && (r.first.None? || Matches(r.first.value, req, env))
    && forall i :: 0 <= i < |r.conditions| ==> Matches(r.conditions[i], req, env)
  }

  /** Static rule actions by restrictiveness; audit ranks just below warn. */
  function StaticRank(a: Action): nat {
    match a
    case Audit => 1
    case Warn => 2
    case Escalate => 3
    case RequireApproval => 4
    case Deny => 5
    case _ => 0
  }

  /** The first of the most restrictive matching rules, scanning in order. */
  function Winner(rules: seq<Rule>, req: Request, env: Engines): Option<Rule> {
    if rules == [] then None
    else
      var w := Winner(rules[..|rules| - 1], req, env);
      var r := rules[|rules| - 1];
      if MatchesRequest(r, req, env) && (w.None? || StaticRank(r.action) > StaticRank(w.value.action)) then Some(r) else w
  }

  function MatchedNames(rules: seq<Rule>, req: Request, env: Engines): seq<string> {
    if rules == [] then []
    else
      var names := MatchedNames(rules[..|rules| - 1], req, env);
      if MatchesRequest(rules[|rules| - 1], req, env) then names + [rules[|rules| - 1].name] else names
  }

  /** The verdict a static rule stands for. */
  function RuleVerdict(a: Action): Action {
    match a
    case Deny => Deny
    case Warn => Warn
    case Audit => Warn
    case Escalate => Escalate
    case RequireApproval => RequireApproval
    case _ => Allow
  }

  function StaticVerdict(rules: seq<Rule>, req: Request, env: Engines): Action {
    var w := Winner(rules, req, env);
    if w.None? then Allow else RuleVerdict(w.value.action)
  }

  // --- Rule order does not matter ------------------------------------------------

  lemma {:induction false} WinnerIsStrictest(rules: seq<Rule>, req: Request, env: Engines)
    ensures Winner(rules, req, env).Some? ==>
              && Winner(rules, req, env).value in rules
              && MatchesRequest(Winner(rules, req, env).value, req, env)
    ensures forall r :: r in rules && MatchesRequest(r, req, env) ==>
              && Winner(rules, req, env).Some?
              && StaticRank(r.action) <= StaticRank(Winner(rules, req, env).value.action)
  {
    if rules != [] {
      var init := rules[..|rules| - 1];
      WinnerIsStrictest(init, req, env);
      assert rules == init + [rules[|rules| - 1]];
    }
  }

  lemma RankDecidesVerdict(a: Action, b: Action)
    requires StaticRank(a) == StaticRank(b)
    ensures RuleVerdict(a) == RuleVerdict(b)
  {
  }

  /** The verdict of the static stage is the same for every order of the rules. */
  lemma StaticVerdictPermutes(rules: seq<Rule>, shuffled: seq<Rule>, req: Request, env: Engines)
    requires multiset(rules) == multiset(shuffled)
    ensures StaticVerdict(rules, req, env) == StaticVerdict(shuffled, req, env)
  {
    WinnerIsStrictest(rules, req, env);
    WinnerIsStrictest(shuffled, req, env);
    assert forall r :: r in rules <==> r in multiset(rules);
    assert forall r :: r in shuffled <==> r in multiset(shuffled);
    var a, b := Winner(rules, req, env), Winner(shuffled, req, env);
    if a.Some? && b.Some? {
      RankDecidesVerdict(a.value.action, b.value.action);
    }
  }

  /** Every matching rule is at most as strict as the static verdict. */
  lemma StaticVerdictIsMaximum(rules: seq<Rule>, req: Request, env: Engines)
    ensures forall r :: r in rules && MatchesRequest(r, req, env) ==>
              VerdictRank(RuleVerdict(r.action)) <= VerdictRank(StaticVerdict(rules, req, env))
    ensures StaticVerdict(rules, req, env) == Allow
         || exists r :: r in rules && MatchesRequest(r, req, env) && RuleVerdict(r.action) == StaticVerdict(rules, req, env)
  {
    WinnerIsStrictest(rules, req, env);
  }

  /** A matching deny rule decides, wherever it stands and whatever else matches. */
  lemma DenyRuleDecides(rules: seq<Rule>, req: Request, env: Engines, r: Rule)
    requires r in rules && MatchesRequest(r, req, env) && r.action == Deny
    ensures StaticVerdict(rules, req, env) == Deny
  {
    WinnerIsStrictest(rules, req, env);
  }

  /** The names are listed in the order of the rules: those of a list of rules are
      those of its parts, one after the other, and a rule lists its name if it
      matches. */
  lemma {:induction false} ListedInOrder(rules: seq<Rule>, more: seq<Rule>, r: Rule, req: Request, env: Engines)
    ensures MatchedNames(rules + more, req, env) == MatchedNames(rules, req, env) + MatchedNames(more, req, env)
    ensures MatchedNames([r], req, env) == if MatchesRequest(r, req, env) then [r.name] else []
    decreases |more|
  {
    assert [r][..0] == [];
    if more == [] {
      assert rules + more == rules;
    } else {
      var all := rules + more;
      assert all[..|all| - 1] == rules + more[..|more| - 1];
      ListedInOrder(rules, more[..|more| - 1], r, req, env);
    }
  }

  /** The listed names are exactly those of the matching rules. */
  lemma {:induction false} EveryMatchListed(rules: seq<Rule>, req: Request, env: Engines, name: string)
    ensures name in MatchedNames(rules, req, env) <==> exists r :: r in rules && MatchesRequest(r, req, env) && r.name == name
  {
    if rules != [] {
      var init, last := rules[..|rules| - 1], rules[|rules| - 1];
      EveryMatchListed(init, req, env, name);
      assert rules == init + [last];
    }
  }
}
