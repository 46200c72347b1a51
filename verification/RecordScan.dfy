/** The strict ingest scan of decision records (governance/record_decode.go),
    over the token stream of the JSON decoder. */
module RecordScan {
  import opened Verdicts

  datatype Token = OpenObject | CloseObject | OpenArray | CloseArray | Text(s: string) | Scalar

  /** Which closed member set constrains the object being scanned. */
  datatype Scope = AnyScope | RecordScope | ClaimScope | CheckScope

  /** The schema's member sets and the case folding of member names. */
  datatype Schema = Schema(
    fold: string -> string,
    record: set<string>,
    claim: set<string>,
    check: set<string>)

  datatype ScanError = DuplicateMember | MalformedInput

  datatype Scan =
    | Scanned(rest: seq<Token>, unknown: string)
    | Failed(error: ScanError)

  function MemberSetFor(sc: Schema, scope: Scope): Option<set<string>> {
    match scope
    case RecordScope => Some(sc.record)
    case ClaimScope => Some(sc.claim)
    case CheckScope => Some(sc.check)
    case AnyScope => None
  }

  predicate OutOfSet(sc: Schema, scope: Scope, name: string) {
    var members := MemberSetFor(sc, scope);
    members.Some? && name !in members.value
  }

  function ChildScope(scope: Scope, name: string): Scope {
    if scope != RecordScope then AnyScope
    else if name == "execution_claim" then ClaimScope
    else if name == "check" then CheckScope
    else AnyScope
  }

  function Noted(sc: Schema, scope: Scope, name: string, unknown: string): string {
    if OutOfSet(sc, scope, name) && unknown == "" then name else unknown
  }

  /** One complete value off the front of the stream. */
  function Consume(sc: Schema, toks: seq<Token>, scope: Scope, unknown: string): (r: Scan)
    ensures r.Scanned? ==> |r.rest| < |toks|
    decreases |toks|, 1
  {
    if toks == [] then Failed(MalformedInput)
    else
      match toks[0]
      case OpenObject => ConsumeMembers(sc, toks[1..], scope, {}, unknown)
      case OpenArray => ConsumeItems(sc, toks[1..], unknown)
      case CloseObject => Failed(MalformedInput)
      case CloseArray => Failed(MalformedInput)
      case Text(_) => Scanned(toks[1..], unknown)
      case Scalar => Scanned(toks[1..], unknown)
  }

  function ConsumeMembers(sc: Schema, toks: seq<Token>, scope: Scope, seen: set<string>, unknown: string): (r: Scan)
    ensures r.Scanned? ==> |r.rest| < |toks|
    decreases |toks|, 0
  {
    if toks == [] then Failed(MalformedInput)
    else
      match toks[0]
      case CloseObject => Scanned(toks[1..], unknown)
      case Text(name) =>
        if sc.fold(name) in seen then Failed(DuplicateMember)
        else
          var r := Consume(sc, toks[1..], ChildScope(scope, name), Noted(sc, scope, name, unknown));
          if r.Failed? then r else ConsumeMembers(sc, r.rest, scope, seen + {sc.fold(name)}, r.unknown)
      case _ => Failed(MalformedInput)
  }

  function ConsumeItems(sc: Schema, toks: seq<Token>, unknown: string): (r: Scan)
    ensures r.Scanned? ==> |r.rest| < |toks|
    decreases |toks|, 2
  {
    if toks == [] || toks[0] == CloseObject then Failed(MalformedInput)
    else if toks[0] == CloseArray then Scanned(toks[1..], unknown)
    else
      var r := Consume(sc, toks, AnyScope, unknown);
      if r.Failed? then r else ConsumeItems(sc, r.rest, r.unknown)
  }

  /** The shared rejection vocabulary; Clean means the scan found nothing. */
  datatype Outcome =
    | Clean
    | DuplicateKey
    | ParseError
    | TrailingData
    | UnknownField(name: string)

  /** `garbage`: bytes follow the tokens that do not form another token. */
  function ScanOutcome(sc: Schema, toks: seq<Token>, garbage: bool): Outcome {
    match Consume(sc, toks, RecordScope, "")
    case Failed(DuplicateMember) => DuplicateKey
    case Failed(MalformedInput) => ParseError
    case Scanned(rest, unknown) =>
      if rest != [] || garbage then TrailingData
      else if unknown != "" then UnknownField(unknown)
      else Clean
  }

  // --- The scan as written -----------------------------------------------------

  class Scanner {
    const schema: Schema
    const tokens: seq<Token>
    const garbage: bool
    var pos: nat
    var firstUnknown: string

    constructor (schema: Schema, tokens: seq<Token>, garbage: bool)
      ensures this.schema == schema && this.tokens == tokens && this.garbage == garbage
      ensures pos == 0 && firstUnknown == ""
    {
      this.schema := schema;
      this.tokens := tokens;
      this.garbage := garbage;
      pos := 0;
      firstUnknown := "";
    }

    ghost predicate Valid()
      reads this
    {
      pos <= |tokens|
    }

    ghost function Rest(): seq<Token>
      requires Valid()
      reads this
    {
      tokens[pos..]
    }

    /** Whether the enclosing object or array has another entry. */
    method More() returns (b: bool)
      requires Valid()
      ensures b == (Rest() != [] && Rest()[0] != CloseObject && Rest()[0] != CloseArray)
    {
      return pos < |tokens| && tokens[pos] != CloseObject && tokens[pos] != CloseArray;
    }

    method Next() returns (t: Option<Token>)
      requires Valid()
      modifies this`pos
      ensures Valid()
      ensures old(Rest()) == [] ==> t.None? && Rest() == []
      ensures old(Rest()) != [] ==> t == Some(old(Rest())[0]) && Rest() == old(Rest())[1..]
      ensures pos >= old(pos) && (t.Some? ==> pos > old(pos))
    {
      if pos == |tokens| {
        return None;
      }
      t := Some(tokens[pos]);
      pos := pos + 1;
    }

    /** consumeJSONValue: None is success. */
    method ConsumeValue(scope: Scope) returns (e: Option<ScanError>)
      requires Valid()
      modifies this
      ensures Valid()
      ensures var r := Consume(schema, old(Rest()), scope, old(firstUnknown));
              if r.Failed? then e == Some(r.error) else e == None && Rest() == r.rest && firstUnknown == r.unknown
      ensures e.None? ==> pos > old(pos)
      decreases |tokens| - pos, 0
    {
      var token := Next();
      if token.None? {
        return Some(MalformedInput);
      }
      match token.value {
        case OpenObject => e := ConsumeObject(scope);
        case OpenArray => e := ConsumeArray();
        case CloseObject => return Some(MalformedInput);
        case CloseArray => return Some(MalformedInput);
        case Text(_) => return None;
        case Scalar => return None;
      }
    }

    method ConsumeObject(scope: Scope) returns (e: Option<ScanError>)
      requires Valid()
      modifies this
      ensures Valid()
      ensures var r := ConsumeMembers(schema, old(Rest()), scope, {}, old(firstUnknown));
              if r.Failed? then e == Some(r.error) else e == None && Rest() == r.rest && firstUnknown == r.unknown
      ensures e.None? ==> pos > old(pos)
      decreases |tokens| - pos, 1
    {
      var seen: set<string> := {};
      var members := MemberSetFor(schema, scope);
      ghost var goal := ConsumeMembers(schema, Rest(), scope, seen, firstUnknown);
      var more := More();
      while more
        invariant Valid() && pos >= old(pos)
        invariant more == (Rest() != [] && Rest()[0] != CloseObject && Rest()[0] != CloseArray)
        invariant goal == ConsumeMembers(schema, Rest(), scope, seen, firstUnknown)
        decreases |tokens| - pos
      {
        var keyToken := Next();
        if !keyToken.value.Text? {
          return Some(MalformedInput);
        }
        var key := keyToken.value.s;
        var folded := schema.fold(key);
        if folded in seen {
          return Some(DuplicateMember);
        }
        seen := seen + {folded};
        if members.Some? && key !in members.value && firstUnknown == "" {
          firstUnknown := key;
        }
        var childScope := AnyScope;
        if scope == RecordScope {
          if key == "execution_claim" {
            childScope := ClaimScope;
          } else if key == "check" {
            childScope := CheckScope;
          }
        }
        e := ConsumeValue(childScope);
        if e.Some? {
          return e;
        }
        more := More();
      }
      var end := Next();
      if end != Some(CloseObject) {
        return Some(MalformedInput);
      }
      return None;
    }

    method ConsumeArray() returns (e: Option<ScanError>)
      requires Valid()
      modifies this
      ensures Valid()
      ensures var r := ConsumeItems(schema, old(Rest()), old(firstUnknown));
              if r.Failed? then e == Some(r.error) else e == None && Rest() == r.rest && firstUnknown == r.unknown
      ensures e.None? ==> pos > old(pos)
      decreases |tokens| - pos, 1
    {
      ghost var goal := ConsumeItems(schema, Rest(), firstUnknown);
      var more := More();
      while more
        invariant Valid() && pos >= old(pos)
        invariant more == (Rest() != [] && Rest()[0] != CloseObject && Rest()[0] != CloseArray)
        invariant goal == ConsumeItems(schema, Rest(), firstUnknown)
        decreases |tokens| - pos
      {
        e := ConsumeValue(AnyScope);
        if e.Some? {
          return e;
        }
        more := More();
      }
      var end := Next();
      if end != Some(CloseArray) {
        return Some(MalformedInput);
      }
      return None;
    }

    /** rejectDuplicateMembersAndTrailing on a fresh scanner. */
    method Reject() returns (o: Outcome)
      requires pos == 0 && firstUnknown == ""
      modifies this
      ensures o == ScanOutcome(schema, tokens, garbage)
    {
      var e := ConsumeValue(RecordScope);
      assert tokens[0..] == tokens;
      if e == Some(DuplicateMember) {
        return DuplicateKey;
      }
      if e == Some(MalformedInput) {
        return ParseError;
      }
      if pos < |tokens| || garbage {
        return TrailingData;
      }
      if firstUnknown != "" {
        return UnknownField(firstUnknown);
      }
      return Clean;
    }
  }

  // --- Well-formed values ---------------------------------------------------------

  datatype Json =
    | Atom
    | Str(s: string)
    | Arr(items: Items)
    | Obj(members: Members)

  datatype Items = NoItem | Item(head: Json, tail: Items)

  datatype Members = NoMember | Member(name: string, value: Json, tail: Members)

  function Tokens(v: Json): seq<Token> {
    match v
    case Atom => [Scalar]
    case Str(s) => [Text(s)]
    case Arr(items) => [OpenArray] + ItemTokens(items)
    case Obj(members) => [OpenObject] + MemberTokens(members)
  }

  function ItemTokens(items: Items): seq<Token> {
    match items
    case NoItem => [CloseArray]
    case Item(head, tail) => Tokens(head) + ItemTokens(tail)
  }

  function MemberTokens(ms: Members): seq<Token> {
    match ms
    case NoMember => [CloseObject]
    case Member(name, value, tail) => [Text(name)] + Tokens(value) + MemberTokens(tail)
  }

  /** The members of one object as a sequence. */
  function Pairs(ms: Members): seq<(string, Json)> {
    match ms
    case NoMember => []
    case Member(name, value, tail) => [(name, value)] + Pairs(tail)
  }

  ghost predicate DistinctNames(sc: Schema, ms: Members) {
    forall i, j :: 0 <= i < j < |Pairs(ms)| ==> sc.fold(Pairs(ms)[i].0) != sc.fold(Pairs(ms)[j].0)
  }

  /** Every object at every depth has case-folded distinct member names. */
  ghost predicate AllDistinct(sc: Schema, v: Json) {
    match v
    case Atom => true
    case Str(_) => true
    case Arr(items) => ItemsDistinct(sc, items)
    case Obj(members) => DistinctNames(sc, members) && ValuesDistinct(sc, members)
  }

  ghost predicate ItemsDistinct(sc: Schema, items: Items) {
    items.Item? ==> AllDistinct(sc, items.head) && ItemsDistinct(sc, items.tail)
  }

  ghost predicate ValuesDistinct(sc: Schema, ms: Members) {
    ms.Member? ==> AllDistinct(sc, ms.value) && ValuesDistinct(sc, ms.tail)
  }

  /** The member names outside the schema, in document order. */
  function Unknowns(sc: Schema, v: Json, scope: Scope): seq<string> {
    if v.Obj? then MemberUnknowns(sc, v.members, scope) else []
  }

  function MemberUnknowns(sc: Schema, ms: Members, scope: Scope): seq<string> {
    if ms.NoMember? then []
    else
      Own(sc, scope, ms.name)
      + Unknowns(sc, ms.value, ChildScope(scope, ms.name))
      + MemberUnknowns(sc, ms.tail, scope)
  }

  function FirstNonEmpty(names: seq<string>): string {
    if names == [] then "" else if names[0] != "" then names[0] else FirstNonEmpty(names[1..])
  }

  function Kept(unknown: string, names: seq<string>): string {
    if unknown != "" then unknown else FirstNonEmpty(names)
  }

  lemma {:induction false} KeptConcat(unknown: string, a: seq<string>, b: seq<string>)
    ensures Kept(Kept(unknown, a), b) == Kept(unknown, a + b)
    decreases |a|
  {
    if a == [] {
      assert a + b == b;
    } else {
      assert (a + b)[1..] == a[1..] + b;
      KeptConcat(unknown, a[1..], b);
    }
  }

  lemma {:induction false} AnyScopeHasNoUnknowns(sc: Schema, ms: Members)
    ensures MemberUnknowns(sc, ms, AnyScope) == []
  {
    if ms.Member? {
      if ms.value.Obj? {
        AnyScopeHasNoUnknowns(sc, ms.value.members);
      }
      AnyScopeHasNoUnknowns(sc, ms.tail);
    }
  }

  /** Names not yet seen, as the scan checks them one by one. */
  ghost predicate FreshNames(sc: Schema, ms: Members, seen: set<string>) {
    ms.Member? ==> sc.fold(ms.name) !in seen && FreshNames(sc, ms.tail, seen + {sc.fold(ms.name)})
  }

  ghost predicate UnseenNames(sc: Schema, ms: Members, seen: set<string>) {
    forall p :: p in Pairs(ms) ==> sc.fold(p.0) !in seen
  }

  lemma DistinctCons(sc: Schema, ms: Members)
    requires ms.Member?
    ensures DistinctNames(sc, ms) <==> DistinctNames(sc, ms.tail) && UnseenNames(sc, ms.tail, {sc.fold(ms.name)})
  {
    var all, rest := Pairs(ms), Pairs(ms.tail);
    assert all[0].0 == ms.name && all[1..] == rest;
    if DistinctNames(sc, ms) {
      forall i, j | 0 <= i < j < |rest|
        ensures sc.fold(rest[i].0) != sc.fold(rest[j].0)
      {
        assert all[i + 1] == rest[i] && all[j + 1] == rest[j];
      }
      forall p | p in rest
        ensures sc.fold(p.0) != sc.fold(ms.name)
      {
        var i :| 0 <= i < |rest| && rest[i] == p;
        assert all[i + 1] == p;
      }
    }
    if DistinctNames(sc, ms.tail) && UnseenNames(sc, ms.tail, {sc.fold(ms.name)}) {
      forall i, j | 0 <= i < j < |all|
        ensures sc.fold(all[i].0) != sc.fold(all[j].0)
      {
        assert all[j] == rest[j - 1] && rest[j - 1] in rest;
        if i > 0 {
          assert all[i] == rest[i - 1];
        }
      }
    }
  }

  lemma {:induction false} FreshMeansDistinct(sc: Schema, ms: Members, seen: set<string>)
    ensures FreshNames(sc, ms, seen) <==> DistinctNames(sc, ms) && UnseenNames(sc, ms, seen)
    decreases ms
  {
    if ms.Member? {
      var f := sc.fold(ms.name);
      FreshMeansDistinct(sc, ms.tail, seen + {f});
      DistinctCons(sc, ms);
      assert forall p :: p in Pairs(ms) <==> p == (ms.name, ms.value) || p in Pairs(ms.tail);
      assert UnseenNames(sc, ms, seen) <==> f !in seen && UnseenNames(sc, ms.tail, seen) by {
        assert (ms.name, ms.value) in Pairs(ms);
      }
    }
  }

  // --- The scan consumes exactly the value, and rejects exactly duplicates ------

  lemma {:induction false} ConsumeValueTokens(sc: Schema, v: Json, rest: seq<Token>, scope: Scope, unknown: string)
    ensures AllDistinct(sc, v) ==>
              Consume(sc, Tokens(v) + rest, scope, unknown) == Scanned(rest, Kept(unknown, Unknowns(sc, v, scope)))
    ensures !AllDistinct(sc, v) ==> Consume(sc, Tokens(v) + rest, scope, unknown) == Failed(DuplicateMember)
    decreases v, 1
  {
    match v
    case Atom => assert ([Scalar] + rest)[1..] == rest;
    case Str(s) => assert ([Text(s)] + rest)[1..] == rest;
    case Arr(items) =>
      assert (Tokens(v) + rest)[1..] == ItemTokens(items) + rest;
      ConsumeItemTokens(sc, items, rest, unknown);
    case Obj(ms) =>
      assert (Tokens(v) + rest)[1..] == MemberTokens(ms) + rest;
      ConsumeMemberTokens(sc, ms, rest, scope, {}, unknown);
      FreshMeansDistinct(sc, ms, {});
  }

  lemma TokensStart(v: Json, rest: seq<Token>)
    ensures Tokens(v) != [] && (Tokens(v) + rest)[0] != CloseArray && (Tokens(v) + rest)[0] != CloseObject
  {
  }

  lemma {:induction false} ConsumeItemTokens(sc: Schema, items: Items, rest: seq<Token>, unknown: string)
    ensures ItemsDistinct(sc, items) ==> ConsumeItems(sc, ItemTokens(items) + rest, unknown) == Scanned(rest, unknown)
    ensures !ItemsDistinct(sc, items) ==> ConsumeItems(sc, ItemTokens(items) + rest, unknown) == Failed(DuplicateMember)
    decreases items, 0
  {
    match items
    case NoItem => assert ([CloseArray] + rest)[1..] == rest;
    case Item(head, tail) =>
      var after := ItemTokens(tail) + rest;
      assert ItemTokens(items) + rest == Tokens(head) + after;
      TokensStart(head, after);
      ConsumeValueTokens(sc, head, after, AnyScope, unknown);
      if head.Obj? {
        AnyScopeHasNoUnknowns(sc, head.members);
      }
      ConsumeItemTokens(sc, tail, rest, unknown);
  }

  function Own(sc: Schema, scope: Scope, name: string): seq<string> {
    if OutOfSet(sc, scope, name) then [name] else []
  }

  lemma NotedIsKept(sc: Schema, scope: Scope, name: string, unknown: string)
    ensures Noted(sc, scope, name, unknown) == Kept(unknown, Own(sc, scope, name))
  {
    var own := Own(sc, scope, name);
    if own != [] {
      assert FirstNonEmpty(own[1..]) == "";
    }
  }

  lemma {:induction false} ConsumeMemberTokens(sc: Schema, ms: Members, rest: seq<Token>, scope: Scope, seen: set<string>, unknown: string)
    ensures FreshNames(sc, ms, seen) && ValuesDistinct(sc, ms) ==>
              ConsumeMembers(sc, MemberTokens(ms) + rest, scope, seen, unknown) == Scanned(rest, Kept(unknown, MemberUnknowns(sc, ms, scope)))
    ensures !(FreshNames(sc, ms, seen) && ValuesDistinct(sc, ms)) ==>
              ConsumeMembers(sc, MemberTokens(ms) + rest, scope, seen, unknown) == Failed(DuplicateMember)
    decreases ms, 0
  {
    match ms
    case NoMember => assert ([CloseObject] + rest)[1..] == rest;
    case Member(name, value, tail) =>
      var after := MemberTokens(tail) + rest;
      var all := MemberTokens(ms) + rest;
      assert all[0] == Text(name) && all[1..] == Tokens(value) + after;
      var noted := Noted(sc, scope, name, unknown);
      var own := Own(sc, scope, name);
      var inner := Unknowns(sc, value, ChildScope(scope, name));
      ConsumeValueTokens(sc, value, after, ChildScope(scope, name), noted);
      NotedIsKept(sc, scope, name, unknown);
      KeptConcat(unknown, own, inner);
      KeptConcat(unknown, own + inner, MemberUnknowns(sc, tail, scope));
      ConsumeMemberTokens(sc, tail, rest, scope, seen + {sc.fold(name)}, Kept(unknown, own + inner));
  }

  /** On the tokens of any well-formed value followed by anything: a duplicate
      outranks trailing data, which outranks an unknown name, and the scan is
      clean exactly when none of the three is there. */
  lemma ScanClassifies(sc: Schema, v: Json, rest: seq<Token>, garbage: bool)
    ensures var o := ScanOutcome(sc, Tokens(v) + rest, garbage);
            var unknown := FirstNonEmpty(Unknowns(sc, v, RecordScope));
            if !AllDistinct(sc, v) then o == DuplicateKey
            else if rest != [] || garbage then o == TrailingData
            else if unknown != "" then o == UnknownField(unknown)
            else o == Clean
  {
    ConsumeValueTokens(sc, v, rest, RecordScope, "");
  }

  // --- What an accepted record looks like ------------------------------------------

  ghost predicate NamesIn(ms: Members, names: set<string>) {
    forall p :: p in Pairs(ms) ==> p.0 in names || p.0 == ""
  }

  /** The value of a schema object member, when it is an object. */
  ghost predicate ChildNamesIn(sc: Schema, name: string, value: Json) {
    && (name == "check" && value.Obj? ==> NamesIn(value.members, sc.check))
    && (name == "execution_claim" && value.Obj? ==> NamesIn(value.members, sc.claim))
  }

  /** The record object, its check and its execution_claim hold only exact-case
      schema names, or the empty name. */
  ghost predicate ClosedRecord(sc: Schema, v: Json) {
    v.Obj? ==>
      && NamesIn(v.members, sc.record)
      && forall p :: p in Pairs(v.members) ==> ChildNamesIn(sc, p.0, p.1)
  }

  lemma {:induction false} AllEmptyConcat(a: seq<string>, b: seq<string>)
    ensures FirstNonEmpty(a + b) == "" <==> FirstNonEmpty(a) == "" && FirstNonEmpty(b) == ""
  {
    KeptConcat("", a, b);
  }

  lemma {:induction false} InnerScopeUnknowns(sc: Schema, ms: Members, scope: Scope)
    requires scope == ClaimScope || scope == CheckScope
    ensures FirstNonEmpty(MemberUnknowns(sc, ms, scope)) == "" <==> NamesIn(ms, MemberSetFor(sc, scope).value)
  {
    if ms.Member? {
      if ms.value.Obj? {
        AnyScopeHasNoUnknowns(sc, ms.value.members);
      }
      InnerScopeUnknowns(sc, ms.tail, scope);
      var own := Own(sc, scope, ms.name);
      assert own + [] == own;
      AllEmptyConcat(own, MemberUnknowns(sc, ms.tail, scope));
      PairsCons(ms);
      assert (ms.name, ms.value) in Pairs(ms);
    }
  }

  lemma PairsCons(ms: Members)
    requires ms.Member?
    ensures forall p :: p in Pairs(ms) <==> p == (ms.name, ms.value) || p in Pairs(ms.tail)
  {
    assert (ms.name, ms.value) in Pairs(ms);
  }

  lemma ChildUnknowns(sc: Schema, name: string, value: Json)
    ensures FirstNonEmpty(Unknowns(sc, value, ChildScope(RecordScope, name))) == "" <==> ChildNamesIn(sc, name, value)
  {
    var child := ChildScope(RecordScope, name);
    if value.Obj? {
      if child == AnyScope {
        AnyScopeHasNoUnknowns(sc, value.members);
      } else {
        InnerScopeUnknowns(sc, value.members, child);
      }
    }
  }

  lemma OwnUnknown(sc: Schema, scope: Scope, name: string)
    ensures FirstNonEmpty(Own(sc, scope, name)) == "" <==> !OutOfSet(sc, scope, name) || name == ""
  {
    var own := Own(sc, scope, name);
    if own != [] {
      assert FirstNonEmpty(own[1..]) == "";
    }
  }

  lemma ClosedCons(sc: Schema, ms: Members)
    requires ms.Member?
    ensures ClosedRecord(sc, Obj(ms)) <==>
              (ms.name in sc.record || ms.name == "") && ChildNamesIn(sc, ms.name, ms.value) && ClosedRecord(sc, Obj(ms.tail))
  {
    PairsCons(ms);
    var p := (ms.name, ms.value);
    assert p in Pairs(ms) && p.0 == ms.name && p.1 == ms.value;
  }

  lemma {:induction false} RecordUnknowns(sc: Schema, ms: Members)
    ensures FirstNonEmpty(MemberUnknowns(sc, ms, RecordScope)) == "" <==> ClosedRecord(sc, Obj(ms))
  {
    if ms.Member? {
      var own := Own(sc, RecordScope, ms.name);
      var inner := Unknowns(sc, ms.value, ChildScope(RecordScope, ms.name));
      RecordUnknowns(sc, ms.tail);
      AllEmptyConcat(own, inner);
      AllEmptyConcat(own + inner, MemberUnknowns(sc, ms.tail, RecordScope));
      ChildUnknowns(sc, ms.name, ms.value);
      OwnUnknown(sc, RecordScope, ms.name);
      ClosedCons(sc, ms);
    }
  }

  /** The scan accepts a well-formed document if and only if all member names
      are distinct, nothing follows, and the schema objects are closed up to the
      empty name. */
  lemma AcceptsExactly(sc: Schema, v: Json, rest: seq<Token>, garbage: bool)
    ensures ScanOutcome(sc, Tokens(v) + rest, garbage) == Clean <==>
              AllDistinct(sc, v) && rest == [] && !garbage && ClosedRecord(sc, v)
  {
    ScanClassifies(sc, v, rest, garbage);
    if v.Obj? {
      RecordUnknowns(sc, v.members);
    }
  }

  // --- Nothing but a well-formed value is accepted --------------------------------------

  /** What the scan consumed is the tokens of a value. */
  lemma {:induction false} ScanReads(sc: Schema, toks: seq<Token>, scope: Scope, unknown: string) returns (v: Json)
    requires Consume(sc, toks, scope, unknown).Scanned?
    ensures toks == Tokens(v) + Consume(sc, toks, scope, unknown).rest
    decreases |toks|, 1
  {
    var rest := Consume(sc, toks, scope, unknown).rest;
    assert toks == [toks[0]] + toks[1..];
    match toks[0]
    case OpenObject =>
      var ms := MembersRead(sc, toks[1..], scope, {}, unknown);
      v := Obj(ms);
      assert [OpenObject] + (MemberTokens(ms) + rest) == Tokens(v) + rest;
    case OpenArray =>
      var items := ItemsRead(sc, toks[1..], unknown);
      v := Arr(items);
      assert [OpenArray] + (ItemTokens(items) + rest) == Tokens(v) + rest;
    case Text(t) => v := Str(t);
    case Scalar => v := Atom;
  }

  lemma {:induction false} ItemsRead(sc: Schema, toks: seq<Token>, unknown: string) returns (items: Items)
    requires ConsumeItems(sc, toks, unknown).Scanned?
    ensures toks == ItemTokens(items) + ConsumeItems(sc, toks, unknown).rest
    decreases |toks|, 2
  {
    if toks[0] == CloseArray {
      items := NoItem;
      assert toks == [CloseArray] + toks[1..];
    } else {
      var v := ScanReads(sc, toks, AnyScope, unknown);
      var r := Consume(sc, toks, AnyScope, unknown);
      var tail := ItemsRead(sc, r.rest, r.unknown);
      items := Item(v, tail);
      assert Tokens(v) + (ItemTokens(tail) + ConsumeItems(sc, toks, unknown).rest) == ItemTokens(items) + ConsumeItems(sc, toks, unknown).rest;
    }
  }

  lemma MemberTokensCons(name: string, v: Json, tail: Members, rest: seq<Token>)
    ensures MemberTokens(Member(name, v, tail)) + rest == [Text(name)] + (Tokens(v) + (MemberTokens(tail) + rest))
  {
  }

  lemma {:induction false} MembersRead(sc: Schema, toks: seq<Token>, scope: Scope, seen: set<string>, unknown: string) returns (ms: Members)
    requires ConsumeMembers(sc, toks, scope, seen, unknown).Scanned?
    ensures toks == MemberTokens(ms) + ConsumeMembers(sc, toks, scope, seen, unknown).rest
    decreases |toks|, 0
  {
    var rest := ConsumeMembers(sc, toks, scope, seen, unknown).rest;
    assert toks == [toks[0]] + toks[1..];
    if toks[0] == CloseObject {
      ms := NoMember;
    } else {
      var name := toks[0].s;
      var inner := Noted(sc, scope, name, unknown);
      var v := ScanReads(sc, toks[1..], ChildScope(scope, name), inner);
      var r := Consume(sc, toks[1..], ChildScope(scope, name), inner);
      var tail := MembersRead(sc, r.rest, scope, seen + {sc.fold(name)}, r.unknown);
      ms := Member(name, v, tail);
      MemberTokensCons(name, v, tail, rest);
    }
  }

  /** On any token stream whatever: the scan is clean if and only if the stream is the
      tokens of one value with distinct names everywhere and closed schema objects. */
  lemma CleanExactly(sc: Schema, toks: seq<Token>, garbage: bool)
    ensures ScanOutcome(sc, toks, garbage) == Clean <==>
              !garbage && exists v :: toks == Tokens(v) && AllDistinct(sc, v) && ClosedRecord(sc, v)
  {
    if ScanOutcome(sc, toks, garbage) == Clean {
      var v := ScanReads(sc, toks, RecordScope, "");
      assert Tokens(v) + [] == Tokens(v);
      AcceptsExactly(sc, v, [], garbage);
      assert toks == Tokens(v);
    }
    if v :| toks == Tokens(v) && AllDistinct(sc, v) && ClosedRecord(sc, v) {
      assert Tokens(v) + [] == Tokens(v);
      AcceptsExactly(sc, v, [], garbage);
    }
  }

  /** The empty member name slips through the scan whatever the schema says. */
  lemma EmptyNamePasses(sc: Schema)
    ensures ScanOutcome(sc, Tokens(Obj(Member("", Atom, NoMember))), false) == Clean
  {
    var v := Obj(Member("", Atom, NoMember));
    assert Tokens(v) + [] == Tokens(v);
    assert Pairs(v.members) == [("", Atom)];
    AcceptsExactly(sc, v, [], false);
  }
}
