/** The condition language of the portable policy evaluator
    (policyeval/conditions.go, policyeval/conditions_evaluators.go) and the
    validator that predicts it (policyeval/evaluator.go). */
module Conditions {
  import opened Text
  import opened Verdicts

  datatype Kind =
    | FieldMatch
    | Regex
    | Range
    | InList
    | ContainsText
    | StartsWith
    | EndsWith
    | Logical
    | StatisticalSpike
    | ExternalCall
    | Semantic
    | UnspecifiedKind

  datatype Operator =
    | Equals
    | NotEquals
    | GreaterThan
    | LessThan
    | GreaterEqual
    | LessEqual
    | MatchesPattern
    | ContainsOp
    | In
    | NotIn
    | UnspecifiedOperator

  datatype LogicalOperator = And | Or | Not | UnspecifiedLogical

  datatype Literal =
    | NoValue
    | StringValue(text: string)
    | IntValue(n: int)
    | FloatValue(x: real)
    | BoolValue(b: bool)

  datatype Condition = Condition(
    kind: Kind,
    field: string,
    operator: Operator,
    value: Literal,
    values: seq<string>,
    negate: bool,
    logical: LogicalOperator,
    nested: seq<Condition>)

  datatype Context = Context(
    userId: string,
    userRoles: seq<string>,
    modelId: string,
    toolNames: seq<string>,
    workflowId: string,
    tenantId: string,
    envelopeId: string,
    phase: string,
    inputText: string,
    outputText: string,
    attributes: map<string, string>)

  /** What evaluating a condition gives: an answer, or a fault that may be a
      missed deadline. */
  datatype Outcome = Holds(value: bool) | Fault(text: string, deadline: bool)

  /** The library functions conditions rest on, as arbitrary deterministic
      functions; compile is None for a pattern that does not compile. */
  datatype Libraries = Libraries(
    compile: string -> Option<string -> bool>,
    parseFloat: string -> Option<real>,
    formatInt: int -> string,
    formatFloat: real -> string,
    call: (Condition, Context) -> Outcome)

  // --- Field paths -----------------------------------------------------------------------

  /** The pieces of s between its dots. */
  function Split(s: string): (parts: seq<string>)
    ensures |parts| >= 1
  {
    if s == "" then [""]
    else
      var rest := Split(s[1..]);
      if s[0] == '.' then [""] + rest else [[s[0]] + rest[0]] + rest[1..]
  }

  const KnownFields: set<string> := {
    "user.id", "user.role", "user.roles", "model.id", "tool.name", "tool.names",
    "workflow.id", "tenant.id", "envelope.id", "phase.type", "input.text", "output.text"}

  predicate ValidFieldPath(field: string) {
    var parts := Split(field);
    && field != ""
    && |parts| >= 2
    && (parts[0] == "attribute" || parts[0] + "." + parts[1] in KnownFields)
  }

  function FirstOf(values: seq<string>): string {
    if values == [] then "" else values[0]
  }

  function Attribute(parts: seq<string>, ctx: Context): string {
    if |parts| < 3 then ""
    else
      var name := Join(parts[2..], ".");
      if name in ctx.attributes then ctx.attributes[name] else ""
  }

  /** extractFieldValue; None is its error. */
  function ExtractFieldValue(field: string, ctx: Context): Option<string> {
    var parts := Split(field);
    if field == "" || |parts| < 2 then None
    else
      var category, name := parts[0], parts[1];
      if category == "user" then
        if name == "id" then Some(ctx.userId)
        else if name == "role" then Some(FirstOf(ctx.userRoles))
        else if name == "roles" then Some(Join(ctx.userRoles, ","))
        else None
      else if category == "model" then (if name == "id" then Some(ctx.modelId) else None)
      else if category == "tool" then
        if name == "name" then Some(FirstOf(ctx.toolNames))
        else if name == "names" then Some(Join(ctx.toolNames, ","))
        else None
      else if category == "workflow" then (if name == "id" then Some(ctx.workflowId) else None)
      else if category == "tenant" then (if name == "id" then Some(ctx.tenantId) else None)
      else if category == "envelope" then (if name == "id" then Some(ctx.envelopeId) else None)
      else if category == "phase" then (if name == "type" then Some(ctx.phase) else None)
      else if category == "input" then (if name == "text" then Some(ctx.inputText) else None)
      else if category == "output" then (if name == "text" then Some(ctx.outputText) else None)
      else if category == "attribute" then Some(Attribute(parts, ctx))
      else None
  }

  /** Splitting loses nothing and leaves no dot inside a piece. */
  lemma {:induction false} SplitFacts(s: string)
    ensures forall i :: 0 <= i < |Split(s)| ==> '.' !in Split(s)[i]
    ensures Join(Split(s), ".") == s
  {
    if s != "" {
      SplitFacts(s[1..]);
      var rest := Split(s[1..]);
      if s[0] == '.' {
        assert Split(s)[1..] == rest;
      } else {
        assert Split(s)[1..] == rest[1..];
        assert s == [s[0]] + s[1..];
      }
    }
  }

  lemma {:induction false} SplitWord(a: string)
    requires '.' !in a
    ensures Split(a) == [a]
  {
    if a != "" {
      SplitWord(a[1..]);
      assert a == [a[0]] + a[1..];
    }
  }

  lemma {:induction false} SplitHead(a: string, rest: string)
    requires '.' !in a
    ensures Split(a + "." + rest) == [a] + Split(rest)
  {
    var s := a + "." + rest;
    if a == "" {
      assert s[1..] == rest;
    } else {
      SplitHead(a[1..], rest);
      assert s[1..] == a[1..] + "." + rest;
      assert a == [a[0]] + a[1..];
    }
  }

  lemma SplitDotted(a: string, b: string)
    requires '.' !in a && '.' !in b
    ensures Split(a + "." + b) == [a, b]
  {
    SplitHead(a, b);
    SplitWord(b);
  }

  lemma DottedIsInjective(a: string, b: string, c: string, d: string)
    requires '.' !in a && '.' !in c && a + "." + b == c + "." + d
    ensures a == c && b == d
  {
    var left, right := a + "." + b, c + "." + d;
    assert left[|a|] == '.' && right[|c|] == '.';
    assert forall k :: 0 <= k < |a| ==> left[k] == a[k];
    assert forall k :: 0 <= k < |c| ==> right[k] == c[k];
    assert left[..|a|] == a && right[..|c|] == c;
    assert left[|a| + 1..] == b && right[|c| + 1..] == d;
  }

  predicate KnownPair(category: string, name: string) {
    || (category == "user" && (name == "id" || name == "role" || name == "roles"))
    || (category == "model" && name == "id")
    || (category == "tool" && (name == "name" || name == "names"))
    || (category == "workflow" && name == "id")
    || (category == "tenant" && name == "id")
    || (category == "envelope" && name == "id")
    || (category == "phase" && name == "type")
    || (category == "input" && name == "text")
    || (category == "output" && name == "text")
  }

  lemma KnownDottedPair(a: string, b: string, category: string, name: string, dotted: string)
    requires '.' !in a && '.' !in category && dotted == category + "." + name
    ensures a + "." + b == dotted <==> a == category && b == name
  {
    if a + "." + b == dotted {
      DottedIsInjective(a, b, category, name);
    }
  }

  lemma KnownFieldsArePairs(a: string, b: string)
    requires '.' !in a
    ensures a + "." + b in KnownFields <==> KnownPair(a, b)
  {
    KnownDottedPair(a, b, "user", "id", "user.id");
    KnownDottedPair(a, b, "user", "role", "user.role");
    KnownDottedPair(a, b, "user", "roles", "user.roles");
    KnownDottedPair(a, b, "model", "id", "model.id");
    KnownDottedPair(a, b, "tool", "name", "tool.name");
    KnownDottedPair(a, b, "tool", "names", "tool.names");
    KnownDottedPair(a, b, "workflow", "id", "workflow.id");
    KnownDottedPair(a, b, "tenant", "id", "tenant.id");
    KnownDottedPair(a, b, "envelope", "id", "envelope.id");
    KnownDottedPair(a, b, "phase", "type", "phase.type");
    KnownDottedPair(a, b, "input", "text", "input.text");
    KnownDottedPair(a, b, "output", "text", "output.text");
  }

  /** The validator accepts a field exactly when the evaluator resolves it, in
      any one context and so in every one. */
  lemma FieldPathPredicts(field: string, ctx: Context)
    ensures ValidFieldPath(field) <==> ExtractFieldValue(field, ctx).Some?
  {
    var parts := Split(field);
    SplitFacts(field);
    if |parts| >= 2 {
      assert '.' !in parts[0];
      KnownFieldsArePairs(parts[0], parts[1]);
    }
  }

  // --- What each field path reads ----------------------------------------------------------------

  /** The context field each fixed path reads. */
  function NamedField(category: string, name: string, ctx: Context): Option<string> {
    if category == "input" && name == "text" then Some(ctx.inputText)
    else if category == "output" && name == "text" then Some(ctx.outputText)
    else if category == "phase" && name == "type" then Some(ctx.phase)
    else if category == "user" && name == "id" then Some(ctx.userId)
    else if category == "model" && name == "id" then Some(ctx.modelId)
    else if category == "tenant" && name == "id" then Some(ctx.tenantId)
    else if category == "workflow" && name == "id" then Some(ctx.workflowId)
    else if category == "envelope" && name == "id" then Some(ctx.envelopeId)
    else if category == "user" && name == "role" then Some(if ctx.userRoles == [] then "" else ctx.userRoles[0])
    else if category == "tool" && name == "name" then Some(if ctx.toolNames == [] then "" else ctx.toolNames[0])
    else if category == "user" && name == "roles" then Some(Join(ctx.userRoles, ","))
    else if category == "tool" && name == "names" then Some(Join(ctx.toolNames, ","))
    else None
  }

  lemma PathPieces(field: string, category: string, name: string, tail: string)
    requires '.' !in category && '.' !in name
    requires field == category + "." + name || field == category + "." + (name + "." + tail)
    ensures field != "" && |Split(field)| >= 2 && Split(field)[0] == category && Split(field)[1] == name
  {
    SplitDotted(category, name);
    SplitHead(name, tail);
    SplitHead(category, name + "." + tail);
  }

  /** A path "category.name", whatever may follow after another dot, reads that field
      and nothing else; attributes apart. */
  lemma FieldReads(field: string, category: string, name: string, tail: string, ctx: Context)
    requires '.' !in category && '.' !in name && category != "attribute"
    requires field == category + "." + name || field == category + "." + (name + "." + tail)
    ensures ExtractFieldValue(field, ctx) == NamedField(category, name, ctx)
  {
    PathPieces(field, category, name, tail);
  }

  /** An attribute is named by everything after the second dot; one the context does
      not carry reads as empty. */
  lemma AttributeReads(group: string, name: string, ctx: Context)
    requires '.' !in group
    ensures ExtractFieldValue("attribute." + group + "." + name, ctx)
         == Some(if name in ctx.attributes then ctx.attributes[name] else "")
  {
    var field := "attribute." + group + "." + name;
    SplitHead(group, name);
    SplitHead("attribute", group + "." + name);
    assert "attribute" + "." == "attribute.";
    assert field == "attribute" + "." + (group + "." + name);
    var parts := Split(field);
    assert parts[2..] == Split(name);
    SplitFacts(name);
  }

  // --- Comparisons ----------------------------------------------------------------------------

  function LiteralText(v: Literal, lib: Libraries): Option<string> {
    match v
    case StringValue(text) => Some(text)
    case IntValue(n) => Some(lib.formatInt(n))
    case FloatValue(x) => Some(lib.formatFloat(x))
    case BoolValue(b) => Some(if b then "true" else "false")
    case NoValue => None
  }

  predicate EvaluateFieldMatch(text: string, c: Condition, lib: Libraries) {
    var want := LiteralText(c.value, lib);
    if want.None? then false
    else if c.operator == Equals then text == want.value
    else if c.operator == NotEquals then text != want.value
    else false
  }

  function EvaluateRegex(text: string, c: Condition, lib: Libraries): Outcome {
    if !c.value.StringValue? then Fault("regex condition requires string value", false)
    else
      var compiled := lib.compile(c.value.text);
      if compiled.None? then Fault("invalid regex pattern", false) else Holds(compiled.value(text))
  }

  function EvaluateRange(text: string, c: Condition, lib: Libraries): Outcome {
    var got := lib.parseFloat(text);
    if got.None? then Fault("field value is not numeric", false)
    else if !c.value.IntValue? && !c.value.FloatValue? then Fault("range condition requires numeric value", false)
    else
      var bound := if c.value.IntValue? then c.value.n as real else c.value.x;
      match c.operator
      case GreaterThan => Holds(got.value > bound)
      case LessThan => Holds(got.value < bound)
      case GreaterEqual => Holds(got.value >= bound)
      case LessEqual => Holds(got.value <= bound)
      case Equals => Holds(got.value == bound)
      case NotEquals => Holds(got.value != bound)
      case _ => Fault("unsupported operator for range", false)
  }

  function Sign(x: real): int {
    if x > 0.0 then 1 else if x < 0.0 then -1 else 0
  }

  /** The signs of field minus bound that an operator accepts; none for one that does
      not compare numbers. */
  function Accepted(op: Operator): set<int> {
    match op
    case GreaterThan => {1}
    case LessThan => {-1}
    case GreaterEqual => {0, 1}
    case LessEqual => {-1, 0}
    case Equals => {0}
    case NotEquals => {-1, 1}
    case _ => {}
  }

  /** A range condition answers by the sign of the difference, and faults exactly when
      the field or the bound is no number or the operator does not compare numbers. */
  lemma RangeExact(text: string, c: Condition, lib: Libraries)
    ensures var r := EvaluateRange(text, c, lib);
            && (r.Holds? <==> lib.parseFloat(text).Some? && (c.value.IntValue? || c.value.FloatValue?) && Accepted(c.operator) != {})
            && (r.Holds? ==>
                  var bound := if c.value.IntValue? then c.value.n as real else c.value.x;
                  r.value <==> Sign(lib.parseFloat(text).value - bound) in Accepted(c.operator))
  {
  }

  /** The list scan: the first hit answers, else the operator does. */
  predicate EvaluateInList(text: string, values: seq<string>, op: Operator) {
    if values == [] then op == NotIn
    else if text == values[0] then op != NotIn
    else EvaluateInList(text, values[1..], op)
  }

  predicate HasSuffix(s: string, suffix: string) {
    |suffix| <= |s| && s[|s| - |suffix|..] == suffix
  }

  predicate EvaluateSpike(text: string, c: Condition, ctx: Context, lib: Libraries) {
    var value := lib.parseFloat(text);
    var avgKey, devKey := c.field + ".avg", c.field + ".stddev";
    if value.None? || avgKey !in ctx.attributes || devKey !in ctx.attributes then false
    else
      var avg := lib.parseFloat(ctx.attributes[avgKey]);
      var dev := lib.parseFloat(ctx.attributes[devKey]);
      var mean := if avg.Some? then avg.value else 0.0;
      if dev.None? || dev.value == 0.0 then false
      else
        var threshold := if c.value.FloatValue? then c.value.x else if c.value.IntValue? then c.value.n as real else 3.0;
        (value.value - mean) / dev.value > threshold
  }

  /** A number the context gives under a key, zero when it does not parse. */
  function StatisticOf(ctx: Context, key: string, lib: Libraries): real
    requires key in ctx.attributes
  {
    match lib.parseFloat(ctx.attributes[key])
    case Some(x) => x
    case None => 0.0
  }

  /** A spike without division: the value lies beyond mean plus threshold deviations,
      on the side a negative deviation turns round; three deviations by default. */
  predicate SpikeMeaning(text: string, c: Condition, ctx: Context, lib: Libraries) {
    && lib.parseFloat(text).Some? && c.field + ".avg" in ctx.attributes && c.field + ".stddev" in ctx.attributes
    && var value := lib.parseFloat(text).value;
       var mean, dev := StatisticOf(ctx, c.field + ".avg", lib), StatisticOf(ctx, c.field + ".stddev", lib);
       var limit := match c.value
         case FloatValue(x) => mean + x * dev
         case IntValue(n) => mean + n as real * dev
         case _ => mean + 3.0 * dev;
       (dev > 0.0 && value > limit) || (dev < 0.0 && value < limit)
  }

  lemma RatioExceeds(x: real, d: real, t: real)
    requires d != 0.0
    ensures x / d > t <==> (d > 0.0 && x > t * d) || (d < 0.0 && x < t * d)
  {
    var r := x / d;
    assert r * d == x;
    assert (r - t) * d == x - t * d;
    if r > t {
      assert d > 0.0 ==> (r - t) * d > 0.0;
      assert d < 0.0 ==> (r - t) * d < 0.0;
    } else {
      assert d > 0.0 ==> (r - t) * d <= 0.0;
      assert d < 0.0 ==> (r - t) * d >= 0.0;
    }
  }

  lemma SpikeExact(text: string, c: Condition, ctx: Context, lib: Libraries)
    ensures EvaluateSpike(text, c, ctx, lib) <==> SpikeMeaning(text, c, ctx, lib)
  {
    if lib.parseFloat(text).Some? && c.field + ".avg" in ctx.attributes && c.field + ".stddev" in ctx.attributes {
      var mean, dev := StatisticOf(ctx, c.field + ".avg", lib), StatisticOf(ctx, c.field + ".stddev", lib);
      var t := if c.value.FloatValue? then c.value.x else if c.value.IntValue? then c.value.n as real else 3.0;
      if dev != 0.0 {
        RatioExceeds(lib.parseFloat(text).value - mean, dev, t);
      }
    }
  }

  // --- Conditions -------------------------------------------------------------------------------

  function EvaluateLeaf(c: Condition, text: string, ctx: Context, external: bool, lib: Libraries): Outcome {
    match c.kind
    case FieldMatch => Holds(EvaluateFieldMatch(text, c, lib))
    case Regex => EvaluateRegex(text, c, lib)
    case Range => EvaluateRange(text, c, lib)
    case InList => Holds(EvaluateInList(text, c.values, c.operator))
    case ContainsText => Holds(c.value.StringValue? && Contains(text, c.value.text))
    case StartsWith => Holds(c.value.StringValue? && HasPrefix(text, c.value.text))
    case EndsWith => Holds(c.value.StringValue? && HasSuffix(text, c.value.text))
    case StatisticalSpike => Holds(EvaluateSpike(text, c, ctx, lib))
    case ExternalCall => if external then lib.call(c, ctx) else Fault("external calls are disabled", false)
    case Semantic => Fault("semantic conditions require escalation to server", false)
    case _ => Fault("unsupported condition type", false)
  }

  function EvaluateCondition(c: Condition, ctx: Context, external: bool, lib: Libraries): Outcome
    decreases c, |c.nested| + 2
  {
    if c.kind == Logical then EvaluateLogical(c, ctx, external, lib)
    else
      var text := ExtractFieldValue(c.field, ctx);
      if text.None? then Fault("field cannot be resolved", false)
      else
        var r := EvaluateLeaf(c, text.value, ctx, external, lib);
        if r.Holds? && c.negate then Holds(!r.value) else r
  }

  function EvaluateLogical(c: Condition, ctx: Context, external: bool, lib: Libraries): Outcome
    decreases c, |c.nested| + 1
  {
    if c.nested == [] then Fault("logical condition has no nested conditions", false)
    else
      match c.logical
      case And => AllFrom(c, 0, ctx, external, lib)
      case Or => AnyFrom(c, 0, ctx, external, lib)
      case Not =>
        var r := EvaluateCondition(c.nested[0], ctx, external, lib);
        if r.Holds? then Holds(!r.value) else r
      case UnspecifiedLogical => Fault("unsupported logical operator", false)
  }

  /** The AND loop from the i-th nested condition on. */
  function AllFrom(c: Condition, i: nat, ctx: Context, external: bool, lib: Libraries): Outcome
    requires i <= |c.nested| && c.nested != []
    decreases c, |c.nested| - i
  {
    if i == |c.nested| then Holds(true)
    else
      var r := EvaluateCondition(c.nested[i], ctx, external, lib);
      if r.Fault? || !r.value then r else AllFrom(c, i + 1, ctx, external, lib)
  }

  /** The OR loop from the i-th nested condition on. */
  function AnyFrom(c: Condition, i: nat, ctx: Context, external: bool, lib: Libraries): Outcome
    requires i <= |c.nested| && c.nested != []
    decreases c, |c.nested| - i
  {
    if i == |c.nested| then Holds(false)
    else
      var r := EvaluateCondition(c.nested[i], ctx, external, lib);
      if r.Fault? || r.value then r else AnyFrom(c, i + 1, ctx, external, lib)
  }

  // --- Validation --------------------------------------------------------------------------------

  /** ValidateCondition accepts. */
  predicate ValidCondition(c: Condition, lib: Libraries) {
    if c.kind == Logical then c.nested != [] && forall i :: 0 <= i < |c.nested| ==> ValidCondition(c.nested[i], lib)
    else
      && (c.kind != ExternalCall ==> ValidFieldPath(c.field))
      && (c.operator == In || c.operator == NotIn ==> c.values != [])
      && (c.kind == Regex ==> c.value.StringValue? && c.value.text != "" && lib.compile(c.value.text).Some?)
  }

  /** A list operator without a list is rejected on every leaf. */
  lemma EmptyListRejected(c: Condition, lib: Libraries)
    requires c.kind != Logical && (c.operator == In || c.operator == NotIn) && c.values == []
    ensures !ValidCondition(c, lib)
  {
  }

  /** Kinds whose evaluation depends on nothing validation cannot see. */
  predicate Predictable(k: Kind) {
    || k == FieldMatch || k == Regex || k == InList || k == ContainsText
    || k == StartsWith || k == EndsWith || k == StatisticalSpike
  }

  /** Every leaf is predictable; logical nodes may lack an operator. */
  predicate PredictableLeaves(c: Condition) {
    if c.kind == Logical then forall i :: 0 <= i < |c.nested| ==> PredictableLeaves(c.nested[i])
    else Predictable(c.kind)
  }

  /** Every leaf is predictable and every logical node names its operator. */
  predicate PredictableTree(c: Condition) {
    if c.kind == Logical then c.logical != UnspecifiedLogical && forall i :: 0 <= i < |c.nested| ==> PredictableTree(c.nested[i])
    else Predictable(c.kind)
  }

  /** text is the printed form of the literal. */
  predicate Prints(v: Literal, text: string, lib: Libraries) {
    match v
    case NoValue => false
    case StringValue(t) => text == t
    case BoolValue(b) => (b && text == "true") || (!b && text == "false")
    case IntValue(n) => text == lib.formatInt(n)
    case FloatValue(x) => text == lib.formatFloat(x)
  }

  /** The plain reading of a leaf. */
  predicate LeafMeaning(c: Condition, text: string, ctx: Context, lib: Libraries) {
    match c.kind
    case FieldMatch =>
      c.value != NoValue && ((c.operator == Equals && Prints(c.value, text, lib)) || (c.operator == NotEquals && !Prints(c.value, text, lib)))
    case Regex => c.value.StringValue? && lib.compile(c.value.text).Some? && lib.compile(c.value.text).value(text)
    case InList => (text in c.values) == (c.operator != NotIn)
    case ContainsText => c.value.StringValue? && exists i :: 0 <= i <= |text| && OccursAt(text, c.value.text, i)
    case StartsWith => c.value.StringValue? && OccursAt(text, c.value.text, 0)
    case EndsWith => c.value.StringValue? && OccursAt(text, c.value.text, |text| - |c.value.text|)
    case StatisticalSpike => SpikeMeaning(text, c, ctx, lib)
    case _ => false
  }

  /** The plain reading of a condition: all, exists, not-the-first, and a leaf up
      to negation.  The negate flag of a logical node is ignored. */
  predicate Meaning(c: Condition, ctx: Context, lib: Libraries) {
    if c.kind == Logical then
      match c.logical
      case And => forall i :: 0 <= i < |c.nested| ==> Meaning(c.nested[i], ctx, lib)
      case Or => exists i :: 0 <= i < |c.nested| && Meaning(c.nested[i], ctx, lib)
      case Not => c.nested != [] && !Meaning(c.nested[0], ctx, lib)
      case UnspecifiedLogical => false
    else
      var text := ExtractFieldValue(c.field, ctx);
      text.Some? && LeafMeaning(c, text.value, ctx, lib) != c.negate
  }

  lemma {:induction false} InListIsMembership(text: string, values: seq<string>, op: Operator)
    ensures EvaluateInList(text, values, op) == ((text in values) == (op != NotIn))
  {
    if values != [] {
      InListIsMembership(text, values[1..], op);
    }
  }

  lemma LeafPredicts(c: Condition, ctx: Context, external: bool, lib: Libraries)
    requires Predictable(c.kind) && ValidCondition(c, lib)
    ensures EvaluateCondition(c, ctx, external, lib) == Holds(Meaning(c, ctx, lib))
  {
    FieldPathPredicts(c.field, ctx);
    var text := ExtractFieldValue(c.field, ctx).value;
    InListIsMembership(text, c.values, c.operator);
    LeafAnswers(c, text, ctx, external, lib);
  }

  lemma LeafAnswers(c: Condition, text: string, ctx: Context, external: bool, lib: Libraries)
    requires Predictable(c.kind)
    requires c.kind == Regex ==> c.value.StringValue? && lib.compile(c.value.text).Some?
    ensures EvaluateLeaf(c, text, ctx, external, lib) == Holds(LeafMeaning(c, text, ctx, lib))
  {
    InListIsMembership(text, c.values, c.operator);
    SpikeExact(text, c, ctx, lib);
    if c.value.StringValue? {
      var want := c.value.text;
      assert |want| <= |text| ==> text[0..0 + |want|] == text[..|want|];
      assert |want| <= |text| ==> text[|text| - |want|..|text| - |want| + |want|] == text[|text| - |want|..];
    }
  }

  /** A leaf faults exactly when its field does not resolve, its pattern does not
      compile, its numbers do not compare, the call it makes is disabled or faults, or
      its kind is not evaluated here. */
  lemma LeafFaultsExactly(c: Condition, ctx: Context, external: bool, lib: Libraries)
    requires c.kind != Logical
    ensures EvaluateCondition(c, ctx, external, lib).Fault? <==>
              || !ValidFieldPath(c.field)
              || (c.kind == Regex && !(c.value.StringValue? && lib.compile(c.value.text).Some?))
              || (c.kind == Range && !RangeCompares(c, ctx, lib))
              || (c.kind == ExternalCall && (!external || lib.call(c, ctx).Fault?))
              || c.kind in {Semantic, UnspecifiedKind}
  {
    FieldPathPredicts(c.field, ctx);
    if ExtractFieldValue(c.field, ctx).Some? {
      RangeExact(ExtractFieldValue(c.field, ctx).value, c, lib);
    }
  }

  /** A range condition has two numbers and an operator that compares them. */
  ghost predicate RangeCompares(c: Condition, ctx: Context, lib: Libraries) {
    && ExtractFieldValue(c.field, ctx).Some? && lib.parseFloat(ExtractFieldValue(c.field, ctx).value).Some?
    && (c.value.IntValue? || c.value.FloatValue?) && Accepted(c.operator) != {}
  }

  /** An enabled external call on a field that resolves answers as the call does, up to
      negation.  Validation asks for no field here, so it accepts external calls that
      fault whenever they are evaluated: exactly those without a valid one. */
  lemma ExternalExact(c: Condition, ctx: Context, lib: Libraries)
    requires c.kind == ExternalCall
    ensures var r, called := EvaluateCondition(c, ctx, true, lib), lib.call(c, ctx);
            && (ValidFieldPath(c.field) && called.Fault? ==> r == called)
            && (ValidFieldPath(c.field) && called.Holds? ==> r == Holds(called.value != c.negate))
            && (!ValidFieldPath(c.field) ==> r.Fault?)
    ensures EvaluateCondition(c, ctx, false, lib).Fault?
    ensures ValidCondition(c, lib) <==> (c.operator == In || c.operator == NotIn ==> c.values != [])
  {
    FieldPathPredicts(c.field, ctx);
  }

  /** Evaluation gets to a logical node without an operator: through the first
      condition of a NOT, past true conditions of an AND, past false ones of an OR. */
  predicate Reaches(c: Condition, ctx: Context, lib: Libraries)
    decreases c, |c.nested| + 1
  {
    c.kind == Logical &&
    match c.logical
    case UnspecifiedLogical => true
    case Not => c.nested != [] && Reaches(c.nested[0], ctx, lib)
    case And => ReachesPast(c, 0, true, ctx, lib)
    case Or => ReachesPast(c, 0, false, ctx, lib)
  }

  /** Some condition from the i-th on reaches such a node, and those before it
      neither do nor settle the node by meaning other than `pass`. */
  predicate ReachesPast(c: Condition, i: nat, pass: bool, ctx: Context, lib: Libraries)
    requires i <= |c.nested|
    decreases c, |c.nested| - i
  {
    i < |c.nested| &&
    (Reaches(c.nested[i], ctx, lib)
     || (Meaning(c.nested[i], ctx, lib) == pass && ReachesPast(c, i + 1, pass, ctx, lib)))
  }

  /** Evaluation faults exactly where a nameless operator is reached, and otherwise
      answers c with its meaning. */
  ghost predicate Agrees(c: Condition, ctx: Context, external: bool, lib: Libraries) {
    var r := EvaluateCondition(c, ctx, external, lib);
    if Reaches(c, ctx, lib) then r.Fault? else r == Holds(Meaning(c, ctx, lib))
  }

  ghost predicate AllAgree(c: Condition, i: nat, ctx: Context, external: bool, lib: Libraries) {
    forall k :: i <= k < |c.nested| ==> Agrees(c.nested[k], ctx, external, lib)
  }

  predicate AllMean(c: Condition, i: nat, ctx: Context, lib: Libraries) {
    forall k :: i <= k < |c.nested| ==> Meaning(c.nested[k], ctx, lib)
  }

  predicate AnyMeans(c: Condition, i: nat, ctx: Context, lib: Libraries) {
    exists k :: i <= k < |c.nested| && Meaning(c.nested[k], ctx, lib)
  }

  lemma {:induction false} AllPredicts(c: Condition, i: nat, ctx: Context, external: bool, lib: Libraries)
    requires i <= |c.nested| && c.nested != [] && AllAgree(c, i, ctx, external, lib)
    ensures if ReachesPast(c, i, true, ctx, lib) then AllFrom(c, i, ctx, external, lib).Fault?
            else AllFrom(c, i, ctx, external, lib) == Holds(AllMean(c, i, ctx, lib))
    decreases |c.nested| - i
  {
    if i < |c.nested| {
      assert Agrees(c.nested[i], ctx, external, lib);
      if !Reaches(c.nested[i], ctx, lib) && Meaning(c.nested[i], ctx, lib) {
        AllPredicts(c, i + 1, ctx, external, lib);
        assert AllMean(c, i, ctx, lib) == AllMean(c, i + 1, ctx, lib);
      }
    }
  }

  lemma {:induction false} AnyPredicts(c: Condition, i: nat, ctx: Context, external: bool, lib: Libraries)
    requires i <= |c.nested| && c.nested != [] && AllAgree(c, i, ctx, external, lib)
    ensures if ReachesPast(c, i, false, ctx, lib) then AnyFrom(c, i, ctx, external, lib).Fault?
            else AnyFrom(c, i, ctx, external, lib) == Holds(AnyMeans(c, i, ctx, lib))
    decreases |c.nested| - i
  {
    if i < |c.nested| {
      assert Agrees(c.nested[i], ctx, external, lib);
      if !Reaches(c.nested[i], ctx, lib) && !Meaning(c.nested[i], ctx, lib) {
        AnyPredicts(c, i + 1, ctx, external, lib);
        assert AnyMeans(c, i, ctx, lib) == AnyMeans(c, i + 1, ctx, lib);
      }
    }
  }

  lemma LogicalAgrees(c: Condition, ctx: Context, external: bool, lib: Libraries)
    requires c.kind == Logical && c.nested != [] && AllAgree(c, 0, ctx, external, lib)
    ensures Agrees(c, ctx, external, lib)
  {
    match c.logical
    case And =>
      AllPredicts(c, 0, ctx, external, lib);
      assert Meaning(c, ctx, lib) == AllMean(c, 0, ctx, lib);
    case Or =>
      AnyPredicts(c, 0, ctx, external, lib);
      assert Meaning(c, ctx, lib) == AnyMeans(c, 0, ctx, lib);
    case Not =>
      assert Agrees(c.nested[0], ctx, external, lib);
    case UnspecifiedLogical =>
  }

  /** The exact law for every accepted tree of predictable leaves, whatever its
      logical operators: evaluation faults if and only if it reaches a node without
      an operator, and otherwise short-circuiting computes the plain meaning. */
  lemma {:induction false} FaultsExactly(c: Condition, ctx: Context, external: bool, lib: Libraries)
    requires ValidCondition(c, lib) && PredictableLeaves(c)
    ensures EvaluateCondition(c, ctx, external, lib).Fault? <==> Reaches(c, ctx, lib)
    ensures !Reaches(c, ctx, lib) ==> EvaluateCondition(c, ctx, external, lib) == Holds(Meaning(c, ctx, lib))
    decreases c
  {
    if c.kind != Logical {
      LeafPredicts(c, ctx, external, lib);
    } else {
      forall i | 0 <= i < |c.nested|
        ensures Agrees(c.nested[i], ctx, external, lib)
      {
        FaultsExactly(c.nested[i], ctx, external, lib);
      }
      LogicalAgrees(c, ctx, external, lib);
    }
  }

  lemma {:induction false} NamedTreeReachesNone(c: Condition, ctx: Context, lib: Libraries)
    requires PredictableTree(c)
    ensures PredictableLeaves(c) && !Reaches(c, ctx, lib)
    decreases c
  {
    if c.kind == Logical {
      forall i | 0 <= i < |c.nested|
        ensures PredictableLeaves(c.nested[i]) && !Reaches(c.nested[i], ctx, lib)
      {
        NamedTreeReachesNone(c.nested[i], ctx, lib);
      }
      PastNone(c, 0, true, ctx, lib);
      PastNone(c, 0, false, ctx, lib);
    }
  }

  lemma {:induction false} PastNone(c: Condition, i: nat, pass: bool, ctx: Context, lib: Libraries)
    requires i <= |c.nested| && forall k :: i <= k < |c.nested| ==> !Reaches(c.nested[k], ctx, lib)
    ensures !ReachesPast(c, i, pass, ctx, lib)
    decreases |c.nested| - i
  {
    if i < |c.nested| {
      PastNone(c, i + 1, pass, ctx, lib);
    }
  }

  /** Validation predicts evaluation: an accepted tree of predictable kinds whose
      logical nodes name their operators never faults, and evaluates to its plain
      meaning. */
  lemma {:induction false} ValidationPredicts(c: Condition, ctx: Context, external: bool, lib: Libraries)
    requires ValidCondition(c, lib) && PredictableTree(c)
    ensures EvaluateCondition(c, ctx, external, lib) == Holds(Meaning(c, ctx, lib))
  {
    NamedTreeReachesNone(c, ctx, lib);
    FaultsExactly(c, ctx, external, lib);
  }

  /** Above trees that name all their operators, an accepted logical node faults
      exactly when its own is unspecified, which validation does not look at. */
  lemma {:induction false} LogicalFaultsExactly(c: Condition, ctx: Context, external: bool, lib: Libraries)
    requires c.kind == Logical && ValidCondition(c, lib)
    requires forall i :: 0 <= i < |c.nested| ==> PredictableTree(c.nested[i])
    ensures EvaluateCondition(c, ctx, external, lib).Fault? <==> c.logical == UnspecifiedLogical
  {
    if c.logical != UnspecifiedLogical {
      ValidationPredicts(c, ctx, external, lib);
    }
  }

  const RootUser := Condition(FieldMatch, "user.id", Equals, StringValue("root"), [], false, UnspecifiedLogical, [])

  lemma RootUserIsValid(lib: Libraries)
    ensures ValidCondition(RootUser, lib)
  {
    SplitDotted("user", "id");
    assert "user" + "." + "id" == "user.id";
  }

  /** A condition that validation accepts and that faults in every context. */
  lemma ValidatedYetFaulting(ctx: Context, external: bool, lib: Libraries)
    ensures var c := Condition(Logical, "", UnspecifiedOperator, NoValue, [], false, UnspecifiedLogical, [RootUser]);
            ValidCondition(c, lib) && EvaluateCondition(c, ctx, external, lib).Fault?
  {
    RootUserIsValid(lib);
  }

  // --- The compiled-pattern cache -----------------------------------------------------------------

  const MaxCached := 1000

  /** getCompiledRegex's cache: bounded, and never visible in an answer. */
  class RegexCache {
    const lib: Libraries
    var cache: map<string, string -> bool>
    var count: nat

    ghost predicate Valid()
      reads this
    {
      && count == |cache| <= MaxCached
      && forall p :: p in cache ==> lib.compile(p) == Some(cache[p])
    }

    constructor (libraries: Libraries)
      ensures Valid() && lib == libraries && cache == map[]
    {
      lib := libraries;
      cache := map[];
      count := 0;
    }

    method Compiled(pattern: string) returns (r: Option<string -> bool>)
      requires Valid()
      modifies this
      ensures Valid()
      ensures r == lib.compile(pattern)
      ensures r.Some? ==> pattern in cache
      ensures r.None? || pattern in old(cache) ==> cache == old(cache)
    {
      if pattern in cache {
        return Some(cache[pattern]);
      }
      var compiled := lib.compile(pattern);
      if compiled.None? {
        return None;
      }
      if count >= MaxCached {
        cache := map[];
        count := 0;
      }
      count := count + 1;
      cache := cache[pattern := compiled.value];
      return compiled;
    }
  }
}
