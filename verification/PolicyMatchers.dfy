/** What a static matcher means, read off the request's own fields
    (governance/policy.go). */
module PolicyMatchers {
  import opened Text
  import opened Verdicts
  import opened Policy

  // --- Which value a field name selects ------------------------------------------------------

  /** The argument a key names; an absent key selects nothing. */
  ghost predicate ArgumentIs(req: Request, key: string, v: Option<string>) {
    if key in req.arguments then v == Some(req.arguments[key]) else v == None
  }

  /** The fixed field names, each with the request field it reads. */
  lemma NamedFields(req: Request)
    ensures RequestField(req, "tool") == RequestField(req, "tool_name") == Some(req.toolName)
    ensures RequestField(req, "action") == Some(req.action)
    ensures RequestField(req, "agent_id") == Some(req.agentId)
    ensures RequestField(req, "tenant_id") == Some(req.tenantId)
    ensures RequestField(req, "transport") == Some(req.transport)
    ensures RequestField(req, "command") == Some(req.command)
    ensures RequestField(req, "code") == Some(req.code)
  {
  }

  /** The SQL class, falling back to the risk class. */
  lemma ClassFields(req: Request)
    ensures RequestField(req, "risk_class") == RequestField(req, "sql.class")
    ensures "sql_class" in req.arguments ==> RequestField(req, "risk_class") == Some(req.arguments["sql_class"])
    ensures "sql_class" !in req.arguments ==> ArgumentIs(req, "risk_class", RequestField(req, "risk_class"))
  {
  }

  /** The text of a call is its SQL when it has any. */
  lemma TextFields(req: Request)
    ensures RequestField(req, "input.text") == RequestField(req, "arguments.text")
    ensures "sql" in req.arguments ==> RequestField(req, "input.text") == Some(req.arguments["sql"])
    ensures "sql" !in req.arguments ==> ArgumentIs(req, "text", RequestField(req, "input.text"))
  {
    assert "input.text"[6..] == "text" && "arguments.text"[10..] == "text";
    assert "arguments." <= "arguments.text" && "input." <= "input.text";
    assert "input.text"[0] != "arguments."[0];
  }

  /** Every other argument is read by its key, under either prefix. */
  lemma ArgumentFields(req: Request, key: string)
    requires key != "text"
    ensures ArgumentIs(req, key, RequestField(req, "arguments." + key))
    ensures ArgumentIs(req, key, RequestField(req, "input." + key))
  {
    var a, i := "arguments." + key, "input." + key;
    assert a[0] == 'a' && a[10..] == key && "arguments.text"[10..] == "text";
    assert i[0] == 'i' && i[5] == '.' && i[6..] == key && "input.text"[6..] == "text";
  }

  /** A name with none of these shapes selects nothing. */
  lemma UnknownFields(req: Request, field: string)
    requires field !in {"tool", "tool_name", "action", "agent_id", "tenant_id", "risk_class", "sql.class", "transport", "command", "code"}
    requires !("arguments." <= field) && !("input." <= field)
    ensures RequestField(req, field) == None
  {
    assert "arguments." <= "arguments.text" && "input." <= "input.text";
  }

  // --- Needles ---------------------------------------------------------------------------------

  /** needle is the first of the texts that is not blank. */
  ghost predicate FirstSolid(texts: seq<string>, needle: string) {
    exists i :: 0 <= i < |texts| && FirstSolidAt(texts, needle, i)
  }

  ghost predicate FirstSolidAt(texts: seq<string>, needle: string, i: nat)
    requires i < |texts|
  {
    texts[i] == needle && !Blank(needle) && forall k :: 0 <= k < i ==> Blank(texts[k])
  }

  lemma {:induction false} FirstNonEmptyExact(texts: seq<string>)
    ensures FirstNonEmpty(texts) != "" <==> exists n :: FirstSolid(texts, n)
    ensures forall n :: FirstSolid(texts, n) ==> FirstNonEmpty(texts) == n
    ensures FirstNonEmpty(texts) != "" ==> FirstSolid(texts, FirstNonEmpty(texts))
  {
    if texts != [] {
      TrimBlank(texts[0]);
      if !Blank(texts[0]) {
        assert FirstSolidAt(texts, texts[0], 0);
        assert FirstSolid(texts, texts[0]);
      } else {
        var rest := texts[1..];
        FirstNonEmptyExact(rest);
        forall n | FirstSolid(rest, n)
          ensures FirstSolid(texts, n)
        {
          var i :| 0 <= i < |rest| && FirstSolidAt(rest, n, i);
          assert forall k :: 1 <= k < i + 1 ==> texts[k] == rest[k - 1];
          assert FirstSolidAt(texts, n, i + 1);
        }
        forall n | FirstSolid(texts, n)
          ensures FirstSolid(rest, n)
        {
          var i :| 0 <= i < |texts| && FirstSolidAt(texts, n, i);
          assert forall k :: 0 <= k < i - 1 ==> rest[k] == texts[k + 1];
          assert FirstSolidAt(rest, n, i - 1);
        }
      }
    }
  }

  // --- Each matcher kind ----------------------------------------------------------------------

  /** The kind as written, up to case and surrounding white space. */
  ghost predicate KindIs(m: Matcher, kind: string) {
    SameText(TrimSpace(m.kind), kind, true)
  }

  /** The matcher has a needle and a field the request carries. */
  ghost predicate Compares(m: Matcher, req: Request, needle: string, text: string) {
    m.field != "" && FirstSolid([m.contains, m.value], needle) && RequestField(req, m.field) == Some(text)
  }

  /** v is one of the values a multi-value matcher lists. */
  ghost predicate Lists(m: Matcher, v: string) {
    v in m.values || (v != "" && (v == m.value || v == m.contains))
  }

  ghost predicate ListsLike(m: Matcher, got: string) {
    exists v :: Lists(m, v) && SameText(got, v, true)
  }

  lemma LowerKeeps(s: string)
    requires forall i :: 0 <= i < |s| ==> !('A' <= s[i] <= 'Z')
    ensures Lower(s) == s
  {
  }

  lemma KindLower(m: Matcher, kind: string)
    requires KindIs(m, kind) && forall i :: 0 <= i < |kind| ==> !('A' <= kind[i] <= 'Z')
    ensures Lower(TrimSpace(m.kind)) == kind
  {
    EqualFoldExact(TrimSpace(m.kind), kind);
    LowerKeeps(kind);
  }

  lemma EqualStringExact(a: string, b: string, fold: bool)
    ensures EqualString(a, b, fold) <==> SameText(a, b, fold)
  {
    EqualFoldExact(a, b);
    if SameText(a, b, false) {
      assert a == b;
    }
  }

  lemma ContainsStringExact(text: string, needle: string, fold: bool)
    ensures ContainsString(text, needle, fold) <==> Occurs(text, needle, fold)
  {
    ContainsExact(text, needle);
    ContainsLowerExact(text, needle);
  }

  lemma MatchesAnyExact(m: Matcher, got: string)
    ensures MatchesAny(got, MatchValues(m), true) <==> ListsLike(m, got)
  {
    var values := MatchValues(m);
    forall v
      ensures v in values <==> Lists(m, v)
    {
    }
    if MatchesAny(got, values, true) {
      var i :| 0 <= i < |values| && EqualString(got, values[i], true);
      EqualStringExact(got, values[i], true);
      assert Lists(m, values[i]);
    }
    if ListsLike(m, got) {
      var v :| Lists(m, v) && SameText(got, v, true);
      var i :| 0 <= i < |values| && values[i] == v;
      EqualStringExact(got, values[i], true);
    }
  }

  /** What the four text comparisons share: a needle, a field, and a text. */
  lemma FieldHitsExact(m: Matcher, kind: string, req: Request)
    ensures FieldHits(m, kind, req) <==>
              exists needle, text :: Compares(m, req, needle, text) &&
                (|| (kind == "contains" && Occurs(text, needle, m.caseInsensitive))
                 || (kind == "not_contains" && !Occurs(text, needle, m.caseInsensitive))
                 || (kind == "equals" && SameText(text, needle, m.caseInsensitive))
                 || (kind == "not_equals" && !SameText(text, needle, m.caseInsensitive)))
  {
    FirstNonEmptyExact([m.contains, m.value]);
    var needle, got := FirstNonEmpty([m.contains, m.value]), RequestField(req, m.field);
    if got.Some? {
      ContainsStringExact(got.value, needle, m.caseInsensitive);
      EqualStringExact(got.value, needle, m.caseInsensitive);
      if needle != "" && m.field != "" {
        assert Compares(m, req, needle, got.value);
      }
    }
  }

  lemma PlainKinds(m: Matcher, req: Request, env: Engines, kind: string)
    requires Lower(TrimSpace(m.kind)) == kind && kind in {"contains", "not_contains", "equals", "not_equals"}
    ensures Matches(m, req, env) == FieldHits(m, kind, req)
  {
  }

  /** A "contains" matcher, which is also what an unnamed one is, hits exactly when
      its needle stands somewhere in the field. */
  lemma ContainsMatches(m: Matcher, req: Request, env: Engines)
    requires KindIs(m, "contains") || Blank(m.kind)
    ensures Matches(m, req, env) <==>
              exists needle, text :: Compares(m, req, needle, text) && Occurs(text, needle, m.caseInsensitive)
  {
    FieldHitsExact(m, "contains", req);
    if Blank(m.kind) {
      TrimBlank(m.kind);
      assert Lower("") == "";
    } else {
      KindLower(m, "contains");
    }
  }

  lemma NotContainsMatches(m: Matcher, req: Request, env: Engines)
    requires KindIs(m, "not_contains")
    ensures Matches(m, req, env) <==>
              exists needle, text :: Compares(m, req, needle, text) && !Occurs(text, needle, m.caseInsensitive)
  {
    FieldHitsExact(m, "not_contains", req);
    KindLower(m, "not_contains");
    PlainKinds(m, req, env, "not_contains");
  }

  lemma EqualsMatches(m: Matcher, req: Request, env: Engines)
    requires KindIs(m, "equals")
    ensures Matches(m, req, env) <==>
              exists needle, text :: Compares(m, req, needle, text) && SameText(text, needle, m.caseInsensitive)
  {
    FieldHitsExact(m, "equals", req);
    KindLower(m, "equals");
    PlainKinds(m, req, env, "equals");
  }

  lemma NotEqualsMatches(m: Matcher, req: Request, env: Engines)
    requires KindIs(m, "not_equals")
    ensures Matches(m, req, env) <==>
              exists needle, text :: Compares(m, req, needle, text) && !SameText(text, needle, m.caseInsensitive)
  {
    FieldHitsExact(m, "not_equals", req);
    KindLower(m, "not_equals");
    PlainKinds(m, req, env, "not_equals");
  }

  /** The transport, in any case; here `value` goes before `contains`. */
  lemma TransportMatches(m: Matcher, req: Request, env: Engines)
    requires KindIs(m, "transport_is")
    ensures Matches(m, req, env) <==>
              exists needle :: FirstSolid([m.value, m.contains], needle) && SameText(needle, req.transport, true)
  {
    KindLower(m, "transport_is");
    FirstNonEmptyExact([m.value, m.contains]);
    EqualFoldExact(FirstNonEmpty([m.value, m.contains]), req.transport);
  }

  /** An agent without identity is in no list, and so outside every list. */
  lemma AgentMatches(m: Matcher, req: Request, env: Engines)
    ensures KindIs(m, "agent_in") ==> (Matches(m, req, env) <==> req.agentId != "" && ListsLike(m, req.agentId))
    ensures KindIs(m, "agent_not_in") ==> (Matches(m, req, env) <==> req.agentId == "" || !ListsLike(m, req.agentId))
  {
    MatchesAnyExact(m, req.agentId);
    if KindIs(m, "agent_in") {
      KindLower(m, "agent_in");
    }
    if KindIs(m, "agent_not_in") {
      KindLower(m, "agent_not_in");
    }
  }

  /** The SQL class unless another field is named. */
  lemma ClassMatches(m: Matcher, req: Request, env: Engines)
    requires KindIs(m, "ast_class")
    ensures var got := RequestField(req, if m.field == "" then "arguments.sql_class" else m.field);
            Matches(m, req, env) <==> got.Some? && ListsLike(m, got.value)
  {
    KindLower(m, "ast_class");
    var got := RequestField(req, if m.field == "" then "arguments.sql_class" else m.field);
    if got.Some? {
      MatchesAnyExact(m, got.value);
    }
  }

  /** The pattern a regex matcher runs on a text the request carries. */
  ghost predicate Runs(m: Matcher, req: Request, pattern: string, text: string) {
    m.field != "" && FirstSolid([m.regex, m.value, m.contains], pattern) && RequestField(req, m.field) == Some(text)
  }

  lemma RegexHitsExact(m: Matcher, req: Request, env: Engines)
    ensures RegexHits(m, req, env) <==>
              exists pattern, text :: Runs(m, req, pattern, text)
                && env.regex(if m.caseInsensitive then "(?i)" + pattern else pattern, text) != Some(false)
  {
    FirstNonEmptyExact([m.regex, m.value, m.contains]);
    var pattern, got := FirstNonEmpty([m.regex, m.value, m.contains]), RequestField(req, m.field);
    if pattern != "" && m.field != "" && got.Some? {
      assert Runs(m, req, pattern, got.value);
    }
  }

  /** A pattern on a field the request carries: it hits when the engine says so, and
      also when it does not compile. */
  lemma RegexMatches(m: Matcher, req: Request, env: Engines)
    requires KindIs(m, "regex")
    ensures Matches(m, req, env) <==>
              exists pattern, text :: Runs(m, req, pattern, text)
                && env.regex(if m.caseInsensitive then "(?i)" + pattern else pattern, text) != Some(false)
  {
    KindLower(m, "regex");
    RegexHitsExact(m, req, env);
    assert Matches(m, req, env) == RegexHits(m, req, env);
  }

  /** A kind outside the vocabulary never hits. */
  lemma UnknownKindMisses(m: Matcher, req: Request, env: Engines)
    requires !Blank(m.kind)
    requires forall kind :: kind in {"contains", "not_contains", "equals", "not_equals", "transport_is", "agent_in", "agent_not_in", "ast_class", "regex"} ==>
               !KindIs(m, kind)
    ensures !Matches(m, req, env)
  {
    TrimBlank(m.kind);
    var trimmed := TrimSpace(m.kind);
    var kind := Lower(trimmed);
    assert |kind| == |trimmed|;
    forall k | 0 <= k < |trimmed|
      ensures SameChar(trimmed[k], kind[k], true)
    {
    }
    assert KindIs(m, kind);
    FieldHitsExact(m, kind, req);
  }

  // --- Rules ------------------------------------------------------------------------------------

  /** The identity is named by a scope list, in any case. */
  ghost predicate InScopeOf(identity: string, scope: seq<string>) {
    scope == [] || (identity != "" && exists i :: 0 <= i < |scope| && SameText(identity, scope[i], true))
  }

  lemma InListExact(identity: string, scope: seq<string>)
    ensures scope == [] || InList(identity, scope) <==> InScopeOf(identity, scope)
  {
    forall i | 0 <= i < |scope|
      ensures EqualString(identity, scope[i], true) <==> SameText(identity, scope[i], true)
    {
      EqualStringExact(identity, scope[i], true);
    }
  }

  /** A rule fires exactly when its tool pattern, its transport, both scopes, its
      matcher and all its conditions do. */
  lemma RuleFiresExactly(r: Rule, req: Request, env: Engines)
    ensures MatchesRequest(r, req, env) <==>
              && (r.tool in {"", "*", req.toolName} || env.glob(r.tool, req.toolName))
              && (r.transport == "" || SameText(r.transport, req.transport, true))
              && InScopeOf(req.tenantId, r.tenantScope) && InScopeOf(req.agentId, r.agentScope)
              && (r.first.Some? ==> Matches(r.first.value, req, env))
              && forall m :: m in r.conditions ==> Matches(m, req, env)
  {
    EqualFoldExact(r.transport, req.transport);
    InListExact(req.tenantId, r.tenantScope);
    InListExact(req.agentId, r.agentScope);
  }

  /** A deny rule with a "contains" matcher on the command denies every call whose
      command holds the needle, whatever the other rules say. */
  lemma DangerousCommandDenied(rules: seq<Rule>, req: Request, env: Engines, r: Rule, needle: string)
    requires r in rules && r.action == Deny && r.tool == "*" && r.transport == "" && r.tenantScope == [] && r.agentScope == []
    requires r.first.None? && r.conditions == [Matcher("contains", "command", needle, "", [], "", true)]
    requires !Blank(needle) && Occurs(req.command, needle, true)
    ensures StaticVerdict(rules, req, env) == Deny
  {
    var m := r.conditions[0];
    NamedFields(req);
    assert TrimSpace("contains") == "contains" by {
      TrimExact("", "contains", "");
    }
    assert FirstSolidAt([m.contains, m.value], needle, 0);
    assert Compares(m, req, needle, req.command);
    ContainsMatches(m, req, env);
    RuleFiresExactly(r, req, env);
    DenyRuleDecides(rules, req, env, r);
  }

  // --- The static verdict, on the actions of the rules that fire ---------------------------------

  ghost predicate Fires(rules: seq<Rule>, req: Request, env: Engines, a: Action) {
    exists r :: r in rules && MatchesRequest(r, req, env) && r.action == a
  }

  /** Stage 2 denies exactly when a deny rule fires; failing that it holds for
      approval when such a rule fires; then escalates; then warns for a warn or audit
      rule; and otherwise allows. */
  lemma StaticVerdictExact(rules: seq<Rule>, req: Request, env: Engines)
    ensures StaticVerdict(rules, req, env) ==
              if Fires(rules, req, env, Deny) then Deny
              else if Fires(rules, req, env, RequireApproval) then RequireApproval
              else if Fires(rules, req, env, Escalate) then Escalate
              else if Fires(rules, req, env, Warn) || Fires(rules, req, env, Audit) then Warn
              else Allow
  {
    WinnerIsStrictest(rules, req, env);
    var w := Winner(rules, req, env);
    if w.Some? {
      assert Fires(rules, req, env, w.value.action);
    }
  }
}
