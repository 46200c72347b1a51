/** The quote-aware pipe splitter and tokenizer (adapters/cli/parser.go). */
module CliParser {
  import opened Text
  import opened Verdicts

  datatype Quote = Plain | Single | Double

  datatype PipeSegment = PipeSegment(command: string, args: seq<string>)

  datatype ParseError = EmptyCommand | UnbalancedCommand | UnbalancedSegment | EmptySegment

  datatype Parsed = Ok(segments: seq<PipeSegment>) | Err(error: ParseError)

  /** A backslash inside quotes escapes the closing quote and itself. */
  predicate Escapes(q: Quote, next: char) {
    (q == Double && next == '"') || (q == Single && next == '\'') || next == '\\'
  }

  predicate EscapePair(s: string, q: Quote) {
    |s| >= 2 && s[0] == '\\' && q != Plain && Escapes(q, s[1])
  }

  predicate TogglesQuote(c: char, q: Quote) {
    (c == '\'' && q != Double) || (c == '"' && q != Single)
  }

  function Toggle(c: char, q: Quote): Quote {
    if q != Plain then Plain else if c == '\'' then Single else Double
  }

  function NextQuote(c: char, q: Quote): Quote {
    if TogglesQuote(c, q) then Toggle(c, q) else q
  }

  /** The quote state after all of s. */
  function Scan(s: string, q: Quote): Quote {
    if s == "" then q
    else if EscapePair(s, q) then Scan(s[2..], q)
    else Scan(s[1..], NextQuote(s[0], q))
  }

  predicate Balanced(s: string) {
    Scan(s, Plain) == Plain
  }

  function Prepend(head: seq<string>, tail: Option<seq<string>>): Option<seq<string>> {
    if tail.None? then None else Some(head + tail.value)
  }

  /** The segments of s, where `cur` is the segment read so far; None when s
      ends inside quotes. */
  function Split(s: string, q: Quote, cur: string): (r: Option<seq<string>>)
    ensures r.Some? ==> r.value != []
    decreases |s|
  {
    if s == "" then (if q == Plain then Some([cur]) else None)
    else if EscapePair(s, q) then Split(s[2..], q, cur + s[..2])
    else if s[0] == '|' && q == Plain then Prepend([cur], Split(s[1..], Plain, ""))
    else Split(s[1..], NextQuote(s[0], q), cur + [s[0]])
  }

  predicate IsBlank(c: char) {
    c == ' ' || c == '\t'
  }

  function Emit(cur: string): seq<string> {
    if cur != "" then [cur] else []
  }

  /** The tokens of s, where `cur` is the token read so far; None when s ends
      inside quotes. */
  function Tok(s: string, q: Quote, cur: string): Option<seq<string>>
    decreases |s|
  {
    if s == "" then (if q == Plain then Some(Emit(cur)) else None)
    else if EscapePair(s, q) then Tok(s[2..], q, cur + [s[1]])
    else if TogglesQuote(s[0], q) then Tok(s[1..], Toggle(s[0], q), cur)
    else if IsBlank(s[0]) && q == Plain then Prepend(Emit(cur), Tok(s[1..], Plain, ""))
    else Tok(s[1..], q, cur + [s[0]])
  }

  function Tokens(segment: string): Option<seq<string>> {
    Tok(TrimSpace(segment), Plain, "")
  }

  function ParseSegments(raw: seq<string>): Parsed {
    if raw == [] then Ok([])
    else
      var t := Tokens(raw[0]);
      if t.None? then Err(UnbalancedSegment)
      else if t.value == [] then Err(EmptySegment)
      else
        var rest := ParseSegments(raw[1..]);
        if rest.Err? then rest else Ok([PipeSegment(t.value[0], t.value[1..])] + rest.segments)
  }

  function Parse(cmd: string): Parsed {
    var t := TrimSpace(cmd);
    if t == "" then Err(EmptyCommand)
    else
      var raw := Split(t, Plain, "");
      if raw.None? then Err(UnbalancedCommand) else ParseSegments(raw.value)
  }

  // --- The loops ---------------------------------------------------------------

  function QuoteOf(inSingle: bool, inDouble: bool): Quote {
    if inSingle then Single else if inDouble then Double else Plain
  }

  lemma PrependTwice(a: seq<string>, b: seq<string>, o: Option<seq<string>>)
    ensures Prepend(a, Prepend(b, o)) == Prepend(a + b, o)
  {
    if o.Some? {
      assert a + (b + o.value) == (a + b) + o.value;
    }
  }

  lemma PrependNone(o: Option<seq<string>>)
    ensures Prepend([], o) == o
  {
    if o.Some? {
      assert [] + o.value == o.value;
    }
  }

  method SplitPipes(cmd: string) returns (r: Option<seq<string>>)
    ensures r == Split(cmd, Plain, "")
  {
    var segments: seq<string> := [];
    var current := "";
    var inSingle, inDouble := false, false;
    var i := 0;
    PrependNone(Split(cmd, Plain, ""));
    assert cmd[0..] == cmd;
    while i < |cmd|
      invariant 0 <= i <= |cmd|
      invariant !(inSingle && inDouble)
      invariant Split(cmd, Plain, "") == Prepend(segments, Split(cmd[i..], QuoteOf(inSingle, inDouble), current))
    {
      var ch := cmd[i];
      var rest := cmd[i..];
      assert rest[1..] == cmd[i + 1..];
      if ch == '\\' && (inDouble || inSingle) {
        if i + 1 < |cmd| {
          var next := cmd[i + 1];
          if (inDouble && next == '"') || (inSingle && next == '\'') || next == '\\' {
            assert rest[..2] == [ch, next] && rest[2..] == cmd[i + 2..];
            current := current + [ch, next];
            i := i + 2;
            continue;
          }
        }
        current := current + [ch];
      } else if ch == '\'' && !inDouble {
        inSingle := !inSingle;
        current := current + [ch];
      } else if ch == '"' && !inSingle {
        inDouble := !inDouble;
        current := current + [ch];
      } else if ch == '|' && !inSingle && !inDouble {
        PrependTwice(segments, [current], Split(cmd[i + 1..], Plain, ""));
        segments := segments + [current];
        current := "";
      } else {
        current := current + [ch];
      }
      i := i + 1;
    }
    if inSingle || inDouble {
      return None;
    }
    return Some(segments + [current]);
  }

  method Tokenize(segment: string) returns (r: Option<seq<string>>)
    ensures r == Tokens(segment)
  {
    var s := TrimSpace(segment);
    if s == "" {
      return Some([]);
    }
    var tokens: seq<string> := [];
    var current := "";
    var inSingle, inDouble := false, false;
    var i := 0;
    PrependNone(Tok(s, Plain, ""));
    assert s[0..] == s;
    while i < |s|
      invariant 0 <= i <= |s|
      invariant !(inSingle && inDouble)
      invariant Tok(s, Plain, "") == Prepend(tokens, Tok(s[i..], QuoteOf(inSingle, inDouble), current))
    {
      var ch := s[i];
      var rest := s[i..];
      assert rest[1..] == s[i + 1..];
      if ch == '\\' && (inDouble || inSingle) {
        if i + 1 < |s| {
          var next := s[i + 1];
          if (inDouble && next == '"') || (inSingle && next == '\'') || next == '\\' {
            assert rest[2..] == s[i + 2..];
            current := current + [next];
            i := i + 2;
            continue;
          }
        }
        current := current + [ch];
      } else if ch == '\'' && !inDouble {
        inSingle := !inSingle;
      } else if ch == '"' && !inSingle {
        inDouble := !inDouble;
      } else if (ch == ' ' || ch == '\t') && !inSingle && !inDouble {
        PrependTwice(tokens, Emit(current), Tok(s[i + 1..], Plain, ""));
        if |current| > 0 {
          tokens := tokens + [current];
          current := "";
        } else {
          assert tokens + Emit(current) == tokens;
        }
      } else {
        current := current + [ch];
      }
      i := i + 1;
    }
    if inSingle || inDouble {
      return None;
    }
    if |current| > 0 {
      tokens := tokens + [current];
    } else {
      assert tokens + Emit(current) == tokens;
    }
    return Some(tokens);
  }

  function PrependSegments(head: seq<PipeSegment>, p: Parsed): Parsed {
    if p.Err? then p else Ok(head + p.segments)
  }

  method ParseCommand(cmd: string) returns (r: Parsed)
    ensures r == Parse(cmd)
  {
    var trimmed := TrimSpace(cmd);
    if trimmed == "" {
      return Err(EmptyCommand);
    }
    var raw := SplitPipes(trimmed);
    if raw.None? {
      return Err(UnbalancedCommand);
    }
    var segments: seq<PipeSegment> := [];
    var i := 0;
    assert raw.value[0..] == raw.value;
    while i < |raw.value|
      invariant 0 <= i <= |raw.value|
      invariant ParseSegments(raw.value) == PrependSegments(segments, ParseSegments(raw.value[i..]))
    {
      assert raw.value[i..][1..] == raw.value[i + 1..];
      var tokens := Tokenize(raw.value[i]);
      if tokens.None? {
        return Err(UnbalancedSegment);
      }
      if |tokens.value| == 0 {
        return Err(EmptySegment);
      }
      ghost var rest := ParseSegments(raw.value[i + 1..]);
      var one := PipeSegment(tokens.value[0], tokens.value[1..]);
      assert rest.Ok? ==> (segments + [one]) + rest.segments == segments + ([one] + rest.segments);
      segments := segments + [one];
      i := i + 1;
    }
    assert segments + [] == segments;
    return Ok(segments);
  }

  // --- The two scanners agree ------------------------------------------------

  lemma {:induction false} SplitFailsIffOpen(s: string, q: Quote, cur: string)
    ensures Split(s, q, cur).None? <==> Scan(s, q) != Plain
    decreases |s|
  {
    if s != "" {
      if EscapePair(s, q) {
        SplitFailsIffOpen(s[2..], q, cur + s[..2]);
      } else if s[0] == '|' && q == Plain {
        SplitFailsIffOpen(s[1..], Plain, "");
      } else {
        SplitFailsIffOpen(s[1..], NextQuote(s[0], q), cur + [s[0]]);
      }
    }
  }

  lemma {:induction false} TokFailsIffOpen(s: string, q: Quote, cur: string)
    ensures Tok(s, q, cur).None? <==> Scan(s, q) != Plain
    decreases |s|
  {
    if s != "" {
      if EscapePair(s, q) {
        TokFailsIffOpen(s[2..], q, cur + [s[1]]);
      } else if TogglesQuote(s[0], q) {
        TokFailsIffOpen(s[1..], Toggle(s[0], q), cur);
      } else if IsBlank(s[0]) && q == Plain {
        TokFailsIffOpen(s[1..], Plain, "");
      } else {
        TokFailsIffOpen(s[1..], q, cur + [s[0]]);
      }
    }
  }

  /** Length of s up to its first unquoted '|'. */
  ghost function FirstLen(s: string, q: Quote): (n: nat)
    ensures n <= |s|
  {
    if s == "" then 0
    else if EscapePair(s, q) then 2 + FirstLen(s[2..], q)
    else if s[0] == '|' && q == Plain then 0
    else 1 + FirstLen(s[1..], NextQuote(s[0], q))
  }

  lemma {:induction false} FirstCutCloses(s: string, q: Quote)
    requires Scan(s, q) == Plain
    ensures Scan(s[..FirstLen(s, q)], q) == Plain
    decreases |s|
  {
    if s != "" {
      var n := FirstLen(s, q);
      if EscapePair(s, q) {
        FirstCutCloses(s[2..], q);
        assert s[..n][2..] == s[2..][..n - 2];
      } else if !(s[0] == '|' && q == Plain) {
        FirstCutCloses(s[1..], NextQuote(s[0], q));
        assert s[..n][1..] == s[1..][..n - 1];
        assert !EscapePair(s[..n], q);
      }
    }
  }

  lemma JoinCons(a: string, rest: seq<string>, t: string)
    requires rest != [] && Join(rest, "|") == t
    ensures Join([a] + rest, "|") == a + "|" + t
  {
    assert ([a] + rest)[1..] == rest;
  }

  lemma Regroup(cur: string, s: string, n: nat)
    requires n <= |s|
    ensures (cur + s[..n]) + s[n..] == cur + s
  {
  }

  lemma {:induction false} SplitJoins(s: string, q: Quote, cur: string)
    requires Split(s, q, cur).Some?
    ensures Join(Split(s, q, cur).value, "|") == cur + s
    decreases |s|
  {
    if s == "" {
      assert cur + s == cur;
    } else if EscapePair(s, q) {
      SplitJoins(s[2..], q, cur + s[..2]);
      Regroup(cur, s, 2);
    } else if s[0] == '|' && q == Plain {
      SplitJoins(s[1..], Plain, "");
      assert "" + s[1..] == s[1..];
      JoinCons(cur, Split(s[1..], Plain, "").value, s[1..]);
      assert s[..1] == "|";
      Regroup(cur, s, 1);
    } else {
      SplitJoins(s[1..], NextQuote(s[0], q), cur + [s[0]]);
      assert s[..1] == [s[0]];
      Regroup(cur, s, 1);
    }
  }

  lemma {:induction false} SplitFirst(s: string, q: Quote, cur: string)
    requires Split(s, q, cur).Some?
    ensures Split(s, q, cur).value[0] == cur + s[..FirstLen(s, q)]
    decreases |s|
  {
    var n := FirstLen(s, q);
    if s == "" {
      assert cur + s[..n] == cur;
    } else if EscapePair(s, q) {
      SplitFirst(s[2..], q, cur + s[..2]);
      assert cur + s[..n] == (cur + s[..2]) + s[2..][..n - 2];
    } else if s[0] == '|' && q == Plain {
      assert cur + s[..n] == cur;
    } else {
      SplitFirst(s[1..], NextQuote(s[0], q), cur + [s[0]]);
      assert cur + s[..n] == (cur + [s[0]]) + s[1..][..n - 1];
    }
  }

  lemma {:induction false} SplitLaterBalanced(s: string, q: Quote, cur: string, k: nat)
    requires Split(s, q, cur).Some? && 1 <= k < |Split(s, q, cur).value|
    ensures Balanced(Split(s, q, cur).value[k])
    decreases |s|
  {
    if s != "" {
      if EscapePair(s, q) {
        SplitLaterBalanced(s[2..], q, cur + s[..2], k);
      } else if s[0] == '|' && q == Plain {
        var t := s[1..];
        if k > 1 {
          SplitLaterBalanced(t, Plain, "", k - 1);
        } else {
          SplitFirst(t, Plain, "");
          SplitFailsIffOpen(t, Plain, "");
          FirstCutCloses(t, Plain);
          assert "" + t[..FirstLen(t, Plain)] == t[..FirstLen(t, Plain)];
        }
      } else {
        SplitLaterBalanced(s[1..], NextQuote(s[0], q), cur + [s[0]], k);
      }
    }
  }

  lemma {:induction false} ScanTrimLeft(s: string)
    ensures Scan(TrimLeft(s), Plain) == Scan(s, Plain)
  {
    if s != "" && IsSpace(s[0]) {
      ScanTrimLeft(s[1..]);
    }
  }

  lemma {:induction false} ScanTrailingSpace(s: string, q: Quote, w: char)
    requires IsSpace(w)
    ensures Scan(s + [w], q) == Scan(s, q)
    decreases |s|
  {
    var t := s + [w];
    if s == "" {
      assert t[1..] == "";
    } else if EscapePair(s, q) {
      assert t[2..] == s[2..] + [w];
      ScanTrailingSpace(s[2..], q, w);
    } else {
      assert t[1..] == s[1..] + [w];
      assert !EscapePair(t, q);
      ScanTrailingSpace(s[1..], NextQuote(s[0], q), w);
    }
  }

  lemma {:induction false} ScanTrimRight(s: string)
    ensures Scan(TrimRight(s), Plain) == Scan(s, Plain)
  {
    if s != "" && IsSpace(s[|s| - 1]) {
      var t := s[..|s| - 1];
      assert s == t + [s[|s| - 1]];
      ScanTrailingSpace(t, Plain, s[|s| - 1]);
      ScanTrimRight(t);
    }
  }

  /** Whenever the splitter succeeds, joining its segments with '|' gives the
      input back, every segment is quote-balanced, and the tokenizer cannot
      report unbalanced quotes on any of them. */
  lemma ScannersAgree(cmd: string)
    requires Split(cmd, Plain, "").Some?
    ensures var raw := Split(cmd, Plain, "").value;
            && Join(raw, "|") == cmd
            && forall k :: 0 <= k < |raw| ==> Balanced(raw[k]) && Tokens(raw[k]).Some?
  {
    SplitFailsIffOpen(cmd, Plain, "");
    SplitJoins(cmd, Plain, "");
    SplitFirst(cmd, Plain, "");
    FirstCutCloses(cmd, Plain);
    assert "" + cmd == cmd && "" + cmd[..FirstLen(cmd, Plain)] == cmd[..FirstLen(cmd, Plain)];
    var raw := Split(cmd, Plain, "").value;
    forall k | 0 <= k < |raw|
      ensures Balanced(raw[k]) && Tokens(raw[k]).Some?
    {
      if k > 0 {
        SplitLaterBalanced(cmd, Plain, "", k);
      }
      ScanTrimLeft(raw[k]);
      ScanTrimRight(TrimLeft(raw[k]));
      TokFailsIffOpen(TrimSpace(raw[k]), Plain, "");
    }
  }

  lemma {:induction false} SegmentsFailOnlyWhenEmpty(raw: seq<string>)
    requires forall k :: 0 <= k < |raw| ==> Tokens(raw[k]).Some?
    ensures ParseSegments(raw).Err? ==> ParseSegments(raw).error == EmptySegment
    ensures ParseSegments(raw).Ok? <==> forall k :: 0 <= k < |raw| ==> Tokens(raw[k]).value != []
    ensures ParseSegments(raw).Ok? ==>
              && |ParseSegments(raw).segments| == |raw|
              && forall k :: 0 <= k < |raw| ==>
                     [ParseSegments(raw).segments[k].command] + ParseSegments(raw).segments[k].args == Tokens(raw[k]).value
  {
    if raw != [] {
      SegmentsFailOnlyWhenEmpty(raw[1..]);
      assert forall k :: 1 <= k < |raw| ==> raw[k] == raw[1..][k - 1];
      assert forall k :: 0 <= k < |raw[1..]| ==> raw[1..][k] == raw[k + 1];
    }
  }

  /** ParseCommand fails exactly for an empty command, an unbalanced command, or
      a segment without tokens; the tokenizer's own quote error is unreachable. */
  lemma ParseOutcome(cmd: string)
    ensures Parse(cmd) == Err(EmptyCommand) <==> TrimSpace(cmd) == ""
    ensures Parse(cmd) == Err(UnbalancedCommand) <==> TrimSpace(cmd) != "" && !Balanced(cmd)
    ensures Parse(cmd) != Err(UnbalancedSegment)
    ensures Parse(cmd).Ok? ==>
              && Split(TrimSpace(cmd), Plain, "").Some?
              && var raw := Split(TrimSpace(cmd), Plain, "").value;
                 |Parse(cmd).segments| == |raw|
                 && forall k :: 0 <= k < |raw| ==>
                      Tokens(raw[k]) == Some([Parse(cmd).segments[k].command] + Parse(cmd).segments[k].args)
    ensures Parse(cmd) == Err(EmptySegment) <==>
              && TrimSpace(cmd) != "" && Split(TrimSpace(cmd), Plain, "").Some?
              && exists k :: 0 <= k < |Split(TrimSpace(cmd), Plain, "").value| && Tokens(Split(TrimSpace(cmd), Plain, "").value[k]) == Some([])
  {
    var t := TrimSpace(cmd);
    ScanTrimLeft(cmd);
    ScanTrimRight(TrimLeft(cmd));
    SplitFailsIffOpen(t, Plain, "");
    var raw := Split(t, Plain, "");
    if raw.Some? {
      ScannersAgree(t);
      SegmentsFailOnlyWhenEmpty(raw.value);
    }
  }

  // --- Commands as people write them ---------------------------------------------------

  /** A stretch of an argument: bare characters, or text between quote marks. */
  datatype Piece = Bare(text: string) | Quoted(text: string, mark: char)

  /** A character that means itself outside quotes. */
  predicate Ordinary(c: char) {
    c != '\'' && c != '"' && c != '|' && !IsSpace(c)
  }

  predicate WellWritten(p: Piece) {
    if p.Bare? then p.text != "" && forall i :: 0 <= i < |p.text| ==> Ordinary(p.text[i])
    else p.mark == '"' || p.mark == '\''
  }

  /** Backslashes and the mark itself are escaped. */
  function Escape(a: string, mark: char): string {
    if a == "" then ""
    else (if a[0] == '\\' || a[0] == mark then ['\\', a[0]] else [a[0]]) + Escape(a[1..], mark)
  }

  function Written(p: Piece): string {
    if p.Bare? then p.text else [p.mark] + (Escape(p.text, p.mark) + [p.mark])
  }

  /** An argument is pieces without a gap: ab"c d"'e'. */
  type Word = seq<Piece>

  predicate WellWord(w: Word) {
    w != [] && forall i :: 0 <= i < |w| ==> WellWritten(w[i])
  }

  function WordText(w: Word): string {
    if w == [] then "" else Written(w[0]) + WordText(w[1..])
  }

  /** What the argument says. */
  function Said(w: Word): string {
    if w == [] then "" else w[0].text + Said(w[1..])
  }

  datatype Spaced = Spaced(gap: string, word: Word)

  predicate WellSpaced(x: Spaced) {
    WellWord(x.word) && x.gap != "" && forall i :: 0 <= i < |x.gap| ==> IsBlank(x.gap[i])
  }

  /** A segment as laid out: words with runs of spaces and tabs between, and any white
      space around. */
  datatype Layout = Layout(lead: string, first: Word, rest: seq<Spaced>, trail: string)

  ghost predicate WellLaid(x: Layout) {
    && WellWord(x.first) && Text.Blank(x.lead) && Text.Blank(x.trail)
    && forall i :: 0 <= i < |x.rest| ==> WellSpaced(x.rest[i])
  }

  ghost predicate AllLaid(xs: seq<Layout>) {
    forall k :: 0 <= k < |xs| ==> WellLaid(xs[k])
  }

  function RestText(rest: seq<Spaced>): string {
    if rest == [] then "" else (rest[0].gap + WordText(rest[0].word)) + RestText(rest[1..])
  }

  function RestSaid(rest: seq<Spaced>): seq<string> {
    if rest == [] then [] else [Said(rest[0].word)] + RestSaid(rest[1..])
  }

  function Core(x: Layout): string {
    WordText(x.first) + RestText(x.rest)
  }

  function LayoutText(x: Layout): string {
    (x.lead + Core(x)) + x.trail
  }

  /** The arguments a layout says. */
  function ArgsOf(x: Layout): seq<string> {
    [Said(x.first)] + RestSaid(x.rest)
  }

  function LayoutTexts(xs: seq<Layout>): seq<string> {
    if xs == [] then [] else [LayoutText(xs[0])] + LayoutTexts(xs[1..])
  }

  function ChainOf(xs: seq<Layout>): seq<seq<string>> {
    seq(|xs|, i requires 0 <= i < |xs| => ArgsOf(xs[i]))
  }

  /** The command: the segments with pipes between. */
  function CommandText(xs: seq<Layout>): string {
    if xs == [] then ""
    else if |xs| == 1 then LayoutText(xs[0])
    else LayoutText(xs[0]) + ("|" + CommandText(xs[1..]))
  }

  function NonEmpty(args: seq<string>): seq<string> {
    if args == [] then [] else Emit(args[0]) + NonEmpty(args[1..])
  }

  lemma Assoc(a: string, b: string, c: string)
    ensures (a + b) + c == a + (b + c)
  {
  }

  // The tokenizer on laid-out text.

  function Inside(mark: char): Quote {
    if mark == '\'' then Single else Double
  }

  lemma TokPair(c: char, q: Quote, t: string, cur: string)
    requires q != Plain && Escapes(q, c)
    ensures Tok(['\\', c] + t, q, cur) == Tok(t, q, cur + [c])
  {
    var s := ['\\', c] + t;
    assert s[2..] == t && s[1] == c;
  }

  lemma TokInside(c: char, q: Quote, t: string, cur: string)
    requires q != Plain && c != '\\' && !TogglesQuote(c, q)
    ensures Tok([c] + t, q, cur) == Tok(t, q, cur + [c])
  {
    assert ([c] + t)[1..] == t;
  }

  lemma {:induction false} TokEscaped(a: string, mark: char, rest: string, cur: string)
    requires mark == '"' || mark == '\''
    ensures Tok(Escape(a, mark) + ([mark] + rest), Inside(mark), cur) == Tok(rest, Plain, cur + a)
    decreases |a|
  {
    if a == "" {
      assert Escape(a, mark) + ([mark] + rest) == [mark] + rest && ([mark] + rest)[1..] == rest && cur + a == cur;
    } else {
      var t := Escape(a[1..], mark) + ([mark] + rest);
      assert cur + a == (cur + [a[0]]) + a[1..];
      TokEscaped(a[1..], mark, rest, cur + [a[0]]);
      if a[0] == '\\' || a[0] == mark {
        Assoc(['\\', a[0]], Escape(a[1..], mark), [mark] + rest);
        TokPair(a[0], Inside(mark), t, cur);
      } else {
        Assoc([a[0]], Escape(a[1..], mark), [mark] + rest);
        TokInside(a[0], Inside(mark), t, cur);
      }
    }
  }

  lemma {:induction false} TokBare(a: string, rest: string, cur: string)
    requires forall i :: 0 <= i < |a| ==> Ordinary(a[i])
    ensures Tok(a + rest, Plain, cur) == Tok(rest, Plain, cur + a)
    decreases |a|
  {
    if a == "" {
      assert a + rest == rest && cur + a == cur;
    } else {
      assert (a + rest)[1..] == a[1..] + rest && (a + rest)[0] == a[0];
      assert Ordinary(a[0]);
      assert cur + a == (cur + [a[0]]) + a[1..];
      TokBare(a[1..], rest, cur + [a[0]]);
    }
  }

  lemma TokPiece(p: Piece, rest: string, cur: string)
    requires WellWritten(p)
    ensures Tok(Written(p) + rest, Plain, cur) == Tok(rest, Plain, cur + p.text)
  {
    if p.Bare? {
      TokBare(p.text, rest, cur);
    } else {
      var s := Written(p) + rest;
      assert s == [p.mark] + (Escape(p.text, p.mark) + ([p.mark] + rest));
      assert s[1..] == Escape(p.text, p.mark) + ([p.mark] + rest);
      TokEscaped(p.text, p.mark, rest, cur);
    }
  }

  lemma {:induction false} TokWord(w: Word, rest: string, cur: string)
    requires forall i :: 0 <= i < |w| ==> WellWritten(w[i])
    ensures Tok(WordText(w) + rest, Plain, cur) == Tok(rest, Plain, cur + Said(w))
    decreases |w|
  {
    if w == [] {
      assert WordText(w) + rest == rest && cur + Said(w) == cur;
    } else {
      Assoc(Written(w[0]), WordText(w[1..]), rest);
      TokPiece(w[0], WordText(w[1..]) + rest, cur);
      TokWord(w[1..], rest, cur + w[0].text);
      Assoc(cur, w[0].text, Said(w[1..]));
    }
  }

  lemma {:induction false} TokGap(gap: string, rest: string, cur: string)
    requires gap != "" && forall i :: 0 <= i < |gap| ==> IsBlank(gap[i])
    ensures Tok(gap + rest, Plain, cur) == Prepend(Emit(cur), Tok(rest, Plain, ""))
    decreases |gap|
  {
    var s := gap + rest;
    assert s[0] == gap[0] && IsBlank(gap[0]) && s[1..] == gap[1..] + rest;
    if |gap| > 1 {
      TokGap(gap[1..], rest, "");
      PrependNone(Tok(rest, Plain, ""));
    } else {
      assert gap[1..] + rest == rest;
    }
  }

  lemma {:induction false} TokRest(rest: seq<Spaced>, cur: string)
    requires forall i :: 0 <= i < |rest| ==> WellSpaced(rest[i])
    ensures Tok(RestText(rest), Plain, cur) == Some(Emit(cur) + NonEmpty(RestSaid(rest)))
    decreases |rest|
  {
    if rest == [] {
      assert Emit(cur) + [] == Emit(cur);
    } else {
      var x, tail := rest[0], RestText(rest[1..]);
      assert WellSpaced(x);
      Assoc(x.gap, WordText(x.word), tail);
      TokGap(x.gap, WordText(x.word) + tail, cur);
      TokWord(x.word, tail, "");
      assert "" + Said(x.word) == Said(x.word);
      TokRest(rest[1..], Said(x.word));
      assert NonEmpty(RestSaid(rest)) == Emit(Said(x.word)) + NonEmpty(RestSaid(rest[1..]));
    }
  }

  lemma TokCore(x: Layout)
    requires WellLaid(x)
    ensures Tok(Core(x), Plain, "") == Some(NonEmpty(ArgsOf(x)))
  {
    TokWord(x.first, RestText(x.rest), "");
    assert "" + Said(x.first) == Said(x.first);
    TokRest(x.rest, Said(x.first));
    assert ArgsOf(x)[1..] == RestSaid(x.rest);
  }

  // White space around a segment.

  predicate Solid(s: string) {
    s != "" && !IsSpace(s[0]) && !IsSpace(s[|s| - 1])
  }

  lemma SolidJoin(a: string, b: string, c: string)
    requires Solid(a) && Solid(c)
    ensures Solid(a + (b + c))
  {
    var s := a + (b + c);
    assert s[0] == a[0] && s[|s| - 1] == c[|c| - 1];
  }

  lemma SolidPair(a: string, b: string)
    requires Solid(a) && Solid(b)
    ensures Solid(a + b)
  {
    var s := a + b;
    assert s[0] == a[0] && s[|s| - 1] == b[|b| - 1];
  }

  lemma PieceSolid(p: Piece)
    requires WellWritten(p)
    ensures Solid(Written(p))
  {
    if p.Bare? {
      assert Ordinary(p.text[0]) && Ordinary(p.text[|p.text| - 1]);
    } else {
      var s := Written(p);
      assert s[0] == p.mark && s[|s| - 1] == p.mark;
    }
  }

  lemma {:induction false} WordSolid(w: Word)
    requires WellWord(w)
    ensures Solid(WordText(w))
  {
    PieceSolid(w[0]);
    if |w| > 1 {
      WordSolid(w[1..]);
      SolidPair(Written(w[0]), WordText(w[1..]));
    } else {
      assert WordText(w[1..]) == "" && WordText(w) == Written(w[0]);
    }
  }

  lemma {:induction false} RestSolid(a: string, rest: seq<Spaced>)
    requires Solid(a) && forall i :: 0 <= i < |rest| ==> WellSpaced(rest[i])
    ensures Solid(a + RestText(rest))
    decreases |rest|
  {
    if rest == [] {
      assert a + RestText(rest) == a;
    } else {
      var x := rest[0];
      assert WellSpaced(x);
      WordSolid(x.word);
      SolidJoin(a, x.gap, WordText(x.word));
      RestSolid(a + (x.gap + WordText(x.word)), rest[1..]);
      Assoc(a, x.gap + WordText(x.word), RestText(rest[1..]));
    }
  }

  lemma CoreSolid(x: Layout)
    requires WellLaid(x)
    ensures Solid(Core(x))
  {
    WordSolid(x.first);
    RestSolid(WordText(x.first), x.rest);
  }

  /** A laid-out segment is tokenized into the arguments it says, empty ones dropped. */
  lemma LayoutTokens(x: Layout)
    requires WellLaid(x)
    ensures Tokens(LayoutText(x)) == Some(NonEmpty(ArgsOf(x)))
  {
    CoreSolid(x);
    TrimExact(x.lead, Core(x), x.trail);
    TokCore(x);
  }

  // The splitter on laid-out text.

  /** The splitter copies t into the current segment and goes on outside quotes. */
  ghost predicate Copied(t: string) {
    forall rest, cur :: Split(t + rest, Plain, cur) == Split(rest, Plain, cur + t)
  }

  lemma CopiedBoth(a: string, b: string)
    requires Copied(a) && Copied(b)
    ensures Copied(a + b)
  {
    forall rest, cur
      ensures Split((a + b) + rest, Plain, cur) == Split(rest, Plain, cur + (a + b))
    {
      Assoc(a, b, rest);
      assert Split(a + (b + rest), Plain, cur) == Split(b + rest, Plain, cur + a);
      assert Split(b + rest, Plain, cur + a) == Split(rest, Plain, (cur + a) + b);
      Assoc(cur, a, b);
    }
  }

  lemma CopiedChar(c: char)
    requires c != '\'' && c != '"' && c != '|'
    ensures Copied([c])
  {
    forall rest, cur
      ensures Split([c] + rest, Plain, cur) == Split(rest, Plain, cur + [c])
    {
      assert ([c] + rest)[1..] == rest;
    }
  }

  lemma CopiedNothing()
    ensures Copied("")
  {
    forall rest, cur
      ensures Split("" + rest, Plain, cur) == Split(rest, Plain, cur + "")
    {
      assert "" + rest == rest && cur + "" == cur;
    }
  }

  lemma {:induction false} CopiedPlain(t: string)
    requires forall i :: 0 <= i < |t| ==> t[i] != '\'' && t[i] != '"' && t[i] != '|'
    ensures Copied(t)
  {
    if t == "" {
      CopiedNothing();
    } else {
      CopiedChar(t[0]);
      CopiedPlain(t[1..]);
      CopiedBoth([t[0]], t[1..]);
      assert [t[0]] + t[1..] == t;
    }
  }

  lemma {:induction false} SplitEscaped(a: string, mark: char, rest: string, cur: string)
    requires mark == '"' || mark == '\''
    ensures Split(Escape(a, mark) + ([mark] + rest), Inside(mark), cur) == Split(rest, Plain, cur + (Escape(a, mark) + [mark]))
    decreases |a|
  {
    var s := Escape(a, mark) + ([mark] + rest);
    if a == "" {
      assert s == [mark] + rest && s[1..] == rest && Escape(a, mark) + [mark] == [mark];
    } else {
      var t := Escape(a[1..], mark) + ([mark] + rest);
      var head := if a[0] == '\\' || a[0] == mark then ['\\', a[0]] else [a[0]];
      assert s == head + t && s[|head|..] == t && s[..|head|] == head;
      assert cur + (Escape(a, mark) + [mark]) == (cur + head) + (Escape(a[1..], mark) + [mark]);
      SplitEscaped(a[1..], mark, rest, cur + head);
    }
  }

  lemma CopiedPiece(p: Piece)
    requires WellWritten(p)
    ensures Copied(Written(p))
  {
    if p.Bare? {
      forall i | 0 <= i < |p.text|
        ensures p.text[i] != '\'' && p.text[i] != '"' && p.text[i] != '|'
      {
        assert Ordinary(p.text[i]);
      }
      CopiedPlain(p.text);
    } else {
      forall rest, cur
        ensures Split(Written(p) + rest, Plain, cur) == Split(rest, Plain, cur + Written(p))
      {
        var s, e := Written(p) + rest, Escape(p.text, p.mark);
        assert s == [p.mark] + (e + ([p.mark] + rest)) && s[1..] == e + ([p.mark] + rest);
        SplitEscaped(p.text, p.mark, rest, cur + [p.mark]);
        assert (cur + [p.mark]) + (e + [p.mark]) == cur + Written(p);
      }
    }
  }

  lemma {:induction false} CopiedWord(w: Word)
    requires forall i :: 0 <= i < |w| ==> WellWritten(w[i])
    ensures Copied(WordText(w))
  {
    if w == [] {
      CopiedNothing();
    } else {
      CopiedPiece(w[0]);
      CopiedWord(w[1..]);
      CopiedBoth(Written(w[0]), WordText(w[1..]));
    }
  }

  lemma CopiedWhite(t: string)
    requires Text.Blank(t)
    ensures Copied(t)
  {
    forall i | 0 <= i < |t|
      ensures t[i] != '\'' && t[i] != '"' && t[i] != '|'
    {
      assert IsSpace(t[i]);
    }
    CopiedPlain(t);
  }

  lemma {:induction false} CopiedRest(rest: seq<Spaced>)
    requires forall i :: 0 <= i < |rest| ==> WellSpaced(rest[i])
    ensures Copied(RestText(rest))
  {
    if rest == [] {
      CopiedNothing();
    } else {
      var x := rest[0];
      assert WellSpaced(x);
      CopiedWhite(x.gap);
      CopiedWord(x.word);
      CopiedBoth(x.gap, WordText(x.word));
      CopiedRest(rest[1..]);
      CopiedBoth(x.gap + WordText(x.word), RestText(rest[1..]));
    }
  }

  lemma CopiedLayout(x: Layout)
    requires WellLaid(x)
    ensures Copied(LayoutText(x))
  {
    CopiedWord(x.first);
    CopiedRest(x.rest);
    CopiedBoth(WordText(x.first), RestText(x.rest));
    CopiedWhite(x.lead);
    CopiedWhite(x.trail);
    CopiedBoth(x.lead, Core(x));
    CopiedBoth(x.lead + Core(x), x.trail);
  }

  lemma PipeSplit(rest: string, cur: string)
    ensures Split("|" + rest, Plain, cur) == Prepend([cur], Split(rest, Plain, ""))
  {
    assert ("|" + rest)[1..] == rest;
  }

  lemma {:induction false} CommandSplit(xs: seq<Layout>)
    requires xs != [] && AllLaid(xs)
    ensures Split(CommandText(xs), Plain, "") == Some(LayoutTexts(xs))
    decreases |xs|
  {
    var text := LayoutText(xs[0]);
    CopiedLayout(xs[0]);
    assert "" + text == text;
    if |xs| == 1 {
      assert text + "" == text;
      assert Split(text + "", Plain, "") == Split("", Plain, "" + text);
      assert LayoutTexts(xs) == [text] + [] == [text];
    } else {
      var rest := CommandText(xs[1..]);
      assert Split(text + ("|" + rest), Plain, "") == Split("|" + rest, Plain, "" + text);
      PipeSplit(rest, text);
      CommandSplit(xs[1..]);
    }
  }

  // White space around the whole command.

  lemma LayoutEnds(x: Layout)
    requires WellLaid(x)
    ensures LayoutText(x) != ""
    ensures x.lead == "" ==> !IsSpace(LayoutText(x)[0])
    ensures x.trail == "" ==> !IsSpace(LayoutText(x)[|LayoutText(x)| - 1])
  {
    CoreSolid(x);
    var s, core := LayoutText(x), Core(x);
    assert x.lead == "" ==> s[0] == core[0];
    assert x.trail == "" ==> s[|s| - 1] == core[|core| - 1];
  }

  lemma LastOf(a: string, b: string)
    requires b != ""
    ensures (a + b)[|a + b| - 1] == b[|b| - 1]
  {
  }

  lemma {:induction false} EndsSolid(xs: seq<Layout>)
    requires xs != [] && AllLaid(xs) && xs[|xs| - 1].trail == ""
    ensures CommandText(xs) != "" && !IsSpace(CommandText(xs)[|CommandText(xs)| - 1])
    decreases |xs|
  {
    if |xs| == 1 {
      LayoutEnds(xs[0]);
    } else {
      EndsSolid(xs[1..]);
      LastOf("|", CommandText(xs[1..]));
      LastOf(LayoutText(xs[0]), "|" + CommandText(xs[1..]));
    }
  }

  lemma BareEndsSolid(xs: seq<Layout>)
    requires xs != [] && AllLaid(xs) && xs[0].lead == "" && xs[|xs| - 1].trail == ""
    ensures Solid(CommandText(xs))
  {
    LayoutEnds(xs[0]);
    EndsSolid(xs);
    assert CommandText(xs)[0] == LayoutText(xs[0])[0];
  }

  /** What ParseCommand makes of a quoted chain: empty arguments vanish. */
  function Survivors(chain: seq<seq<string>>): Parsed {
    if chain == [] then Ok([])
    else
      var args := NonEmpty(chain[0]);
      if args == [] then Err(EmptySegment)
      else PrependSegments([PipeSegment(args[0], args[1..])], Survivors(chain[1..]))
  }

  lemma ParseCons(text: string, texts: seq<string>, said: seq<string>, chain: seq<seq<string>>)
    requires Tokens(text) == Some(NonEmpty(said)) && ParseSegments(texts) == Survivors(chain)
    ensures ParseSegments([text] + texts) == Survivors([said] + chain)
  {
    assert ([text] + texts)[1..] == texts && ([said] + chain)[1..] == chain;
  }

  lemma {:induction false} LayoutsParse(xs: seq<Layout>)
    requires AllLaid(xs)
    ensures ParseSegments(LayoutTexts(xs)) == Survivors(ChainOf(xs))
    decreases |xs|
  {
    if xs == [] {
      assert ChainOf(xs) == [];
    } else {
      LayoutTokens(xs[0]);
      LayoutsParse(xs[1..]);
      ParseCons(LayoutText(xs[0]), LayoutTexts(xs[1..]), ArgsOf(xs[0]), ChainOf(xs[1..]));
      assert ChainOf(xs) == [ArgsOf(xs[0])] + ChainOf(xs[1..]);
    }
  }

  /** Any command as people write it: segments between pipes, arguments separated by
      runs of spaces and tabs, each bare, single-quoted, double-quoted or a mix of
      these, white space around each segment and around the whole.  Parsing gives back
      what the arguments say. */
  lemma LaidOutParses(pre: string, xs: seq<Layout>, post: string)
    requires xs != [] && AllLaid(xs) && xs[0].lead == "" && xs[|xs| - 1].trail == ""
    requires Text.Blank(pre) && Text.Blank(post)
    ensures Parse((pre + CommandText(xs)) + post) == Survivors(ChainOf(xs))
  {
    BareEndsSolid(xs);
    TrimExact(pre, CommandText(xs), post);
    CommandSplit(xs);
    LayoutsParse(xs);
  }

  function AsSegments(chain: seq<seq<string>>): seq<PipeSegment>
    requires forall k :: 0 <= k < |chain| ==> chain[k] != []
  {
    if chain == [] then [] else [PipeSegment(chain[0][0], chain[0][1..])] + AsSegments(chain[1..])
  }

  lemma {:induction false} NonEmptyShrinks(args: seq<string>)
    ensures |NonEmpty(args)| <= |args|
    ensures NonEmpty(args) == args <==> "" !in args
    ensures "" in args ==> |NonEmpty(args)| < |args|
  {
    if args != [] {
      NonEmptyShrinks(args[1..]);
      assert args == [args[0]] + args[1..];
    }
  }

  lemma {:induction false} SurvivorsAll(chain: seq<seq<string>>)
    requires forall k :: 0 <= k < |chain| ==> chain[k] != []
    ensures Survivors(chain) == Ok(AsSegments(chain)) <==> forall k :: 0 <= k < |chain| ==> "" !in chain[k]
  {
    if chain != [] {
      SurvivorsAll(chain[1..]);
      NonEmptyShrinks(chain[0]);
      assert forall k :: 1 <= k < |chain| ==> chain[k] == chain[1..][k - 1];
      assert forall k :: 0 <= k < |chain[1..]| ==> chain[1..][k] == chain[k + 1];
      var rest := Survivors(chain[1..]);
      var args := NonEmpty(chain[0]);
      if args != [] && rest.Ok? {
        var s := [PipeSegment(args[0], args[1..])] + rest.segments;
        var t := [PipeSegment(chain[0][0], chain[0][1..])] + AsSegments(chain[1..]);
        assert s == t ==> s[0] == t[0] && s[1..] == t[1..];
        assert args == [args[0]] + args[1..] && chain[0] == [chain[0][0]] + chain[0][1..];
      }
    }
  }

  // --- Round trip ----------------------------------------------------------------

  function QuotedWord(a: string): Word {
    [Quoted(a, '"')]
  }

  function QuotedRest(args: seq<string>): seq<Spaced> {
    if args == [] then [] else [Spaced(" ", QuotedWord(args[0]))] + QuotedRest(args[1..])
  }

  /** Every argument double-quoted, with a space between. */
  function QuotedLayouts(chain: seq<seq<string>>): seq<Layout>
    requires forall k :: 0 <= k < |chain| ==> chain[k] != []
  {
    if chain == [] then []
    else [Layout("", QuotedWord(chain[0][0]), QuotedRest(chain[0][1..]), "")] + QuotedLayouts(chain[1..])
  }

  lemma {:induction false} QuotedRestSays(args: seq<string>)
    ensures RestSaid(QuotedRest(args)) == args
    ensures forall i :: 0 <= i < |QuotedRest(args)| ==> WellSpaced(QuotedRest(args)[i])
  {
    if args != [] {
      QuotedRestSays(args[1..]);
      QuotedSays(args[0]);
    }
  }

  lemma QuotedSays(a: string)
    ensures Said(QuotedWord(a)) == a && WellWord(QuotedWord(a))
  {
    assert QuotedWord(a)[1..] == [] && a + "" == a;
  }

  lemma {:induction false} QuotedLayoutsSay(chain: seq<seq<string>>)
    requires forall k :: 0 <= k < |chain| ==> chain[k] != []
    ensures |QuotedLayouts(chain)| == |chain| && AllLaid(QuotedLayouts(chain))
    ensures forall k :: 0 <= k < |chain| ==>
              QuotedLayouts(chain)[k].lead == "" && QuotedLayouts(chain)[k].trail == "" && ArgsOf(QuotedLayouts(chain)[k]) == chain[k]
  {
    if chain != [] {
      QuotedLayoutsSay(chain[1..]);
      QuotedSays(chain[0][0]);
      QuotedRestSays(chain[0][1..]);
      assert [chain[0][0]] + chain[0][1..] == chain[0];
    }
  }

  /** Laid out with no white space around the whole. */
  ghost predicate Flush(xs: seq<Layout>) {
    xs != [] && AllLaid(xs) && xs[0].lead == "" && xs[|xs| - 1].trail == ""
  }

  lemma FlushParses(xs: seq<Layout>)
    requires Flush(xs)
    ensures Parse(CommandText(xs)) == Survivors(ChainOf(xs))
  {
    LaidOutParses("", xs, "");
    assert ("" + CommandText(xs)) + "" == CommandText(xs);
  }

  lemma QuotedIsFlush(chain: seq<seq<string>>)
    requires chain != [] && forall k :: 0 <= k < |chain| ==> chain[k] != []
    ensures Flush(QuotedLayouts(chain)) && ChainOf(QuotedLayouts(chain)) == chain
  {
    QuotedLayoutsSay(chain);
  }

  /** Round trip: double-quote every argument of a non-empty chain of non-empty
      argument lists, join with spaces and '|', and ParseCommand returns the same
      chain if and only if no argument is the empty string. */
  lemma RoundTrip(chain: seq<seq<string>>)
    requires chain != [] && forall k :: 0 <= k < |chain| ==> chain[k] != []
    ensures Parse(CommandText(QuotedLayouts(chain))) == Survivors(chain)
    ensures Parse(CommandText(QuotedLayouts(chain))) == Ok(AsSegments(chain)) <==> forall k :: 0 <= k < |chain| ==> "" !in chain[k]
  {
    QuotedIsFlush(chain);
    FlushParses(QuotedLayouts(chain));
    SurvivorsAll(chain);
  }

  /** Any layout whose arguments all say something gives its chain back. */
  lemma LayoutRoundTrip(pre: string, xs: seq<Layout>, post: string)
    requires xs != [] && AllLaid(xs) && xs[0].lead == "" && xs[|xs| - 1].trail == ""
    requires Text.Blank(pre) && Text.Blank(post)
    requires forall k :: 0 <= k < |xs| ==> "" !in ArgsOf(xs[k])
    ensures Parse((pre + CommandText(xs)) + post) == Ok(AsSegments(ChainOf(xs)))
  {
    LaidOutParses(pre, xs, post);
    SurvivorsAll(ChainOf(xs));
  }
}
