/** The string operations the program takes from its language's library. */
module Text {

  predicate OccursAt(s: string, sub: string, i: int) {
    0 <= i && i + |sub| <= |s| && s[i..i + |sub|] == sub
  }

  predicate Contains(s: string, sub: string) {
    exists i :: 0 <= i <= |s| && OccursAt(s, sub, i)
  }

  lemma ContainsMiddle(a: string, sub: string, c: string)
    ensures Contains(a + sub + c, sub)
  {
    assert OccursAt(a + sub + c, sub, |a|);
  }

  predicate HasPrefix(s: string, p: string) {
    p <= s
  }

  /** White space as Unicode defines it for trimming. */
  predicate IsSpace(c: char) {
    || c == ' ' || '\t' <= c <= '\r' || c == '\U{0085}' || c == '\U{00A0}' || c == '\U{1680}'
    || '\U{2000}' <= c <= '\U{200A}' || c == '\U{2028}' || c == '\U{2029}' || c == '\U{202F}'
    || c == '\U{205F}' || c == '\U{3000}'
  }

  function TrimLeft(s: string): string {
    if s != "" && IsSpace(s[0]) then TrimLeft(s[1..]) else s
  }

  function TrimRight(s: string): string {
    if s != "" && IsSpace(s[|s| - 1]) then TrimRight(s[..|s| - 1]) else s
  }

  function TrimSpace(s: string): string {
    TrimRight(TrimLeft(s))
  }

  function Join(parts: seq<string>, sep: string): string {
    if parts == [] then ""
    else if |parts| == 1 then parts[0]
    else parts[0] + sep + Join(parts[1..], sep)
  }

  function LowerChar(c: char): char {
    if 'A' <= c <= 'Z' then c - 'A' + 'a' else c
  }

  function Lower(s: string): string {
    seq(|s|, i requires 0 <= i < |s| => LowerChar(s[i]))
  }

  /** Case-insensitive equality over ASCII letters. */
  predicate EqualFold(a: string, b: string) {
    Lower(a) == Lower(b)
  }

  // --- What these operations compute, read off the characters ----------------------------------

  /** The same character, or with `fold` the two cases of one ASCII letter. */
  ghost predicate SameChar(a: char, b: char, fold: bool) {
    || a == b
    || (fold && 'A' <= a <= 'Z' && b as int == a as int + 32)
    || (fold && 'A' <= b <= 'Z' && a as int == b as int + 32)
  }

  ghost predicate SameText(a: string, b: string, fold: bool) {
    |a| == |b| && forall k :: 0 <= k < |a| ==> SameChar(a[k], b[k], fold)
  }

  ghost predicate OccursFrom(text: string, needle: string, i: nat, fold: bool) {
    i + |needle| <= |text| && forall k :: 0 <= k < |needle| ==> SameChar(text[i + k], needle[k], fold)
  }

  /** needle stands somewhere in text, character by character. */
  ghost predicate Occurs(text: string, needle: string, fold: bool) {
    exists i: nat :: OccursFrom(text, needle, i, fold)
  }

  ghost predicate Blank(s: string) {
    forall i :: 0 <= i < |s| ==> IsSpace(s[i])
  }

  lemma LowerCharSame(a: char, b: char)
    ensures LowerChar(a) == LowerChar(b) <==> SameChar(a, b, true)
  {
  }

  lemma EqualFoldExact(a: string, b: string)
    ensures EqualFold(a, b) <==> SameText(a, b, true)
  {
    if SameText(a, b, true) {
      forall k | 0 <= k < |a|
        ensures Lower(a)[k] == Lower(b)[k]
      {
        LowerCharSame(a[k], b[k]);
      }
      assert Lower(a) == Lower(b);
    }
    if EqualFold(a, b) {
      assert |Lower(a)| == |a| && |Lower(b)| == |b|;
      forall k | 0 <= k < |a|
        ensures SameChar(a[k], b[k], true)
      {
        assert Lower(a)[k] == Lower(b)[k];
        LowerCharSame(a[k], b[k]);
      }
    }
  }

  lemma OccursAtExact(text: string, needle: string, i: nat)
    ensures OccursAt(text, needle, i) <==> OccursFrom(text, needle, i, false)
  {
    if OccursFrom(text, needle, i, false) {
      assert text[i..i + |needle|] == needle;
    }
    if OccursAt(text, needle, i) {
      forall k | 0 <= k < |needle|
        ensures SameChar(text[i + k], needle[k], false)
      {
        assert text[i..i + |needle|][k] == text[i + k];
      }
    }
  }

  lemma ContainsExact(text: string, needle: string)
    ensures Contains(text, needle) <==> Occurs(text, needle, false)
  {
    if Contains(text, needle) {
      var i :| 0 <= i <= |text| && OccursAt(text, needle, i);
      OccursAtExact(text, needle, i);
    }
    if Occurs(text, needle, false) {
      var i: nat :| OccursFrom(text, needle, i, false);
      OccursAtExact(text, needle, i);
    }
  }

  lemma LowerOccurs(text: string, needle: string, i: nat)
    ensures OccursFrom(Lower(text), Lower(needle), i, false) <==> OccursFrom(text, needle, i, true)
  {
    if i + |needle| <= |text| {
      forall k | 0 <= k < |needle|
        ensures Lower(text)[i + k] == Lower(needle)[k] <==> SameChar(text[i + k], needle[k], true)
      {
        LowerCharSame(text[i + k], needle[k]);
      }
    }
  }

  lemma ContainsLowerExact(text: string, needle: string)
    ensures Contains(Lower(text), Lower(needle)) <==> Occurs(text, needle, true)
  {
    ContainsExact(Lower(text), Lower(needle));
    if Occurs(Lower(text), Lower(needle), false) {
      var i: nat :| OccursFrom(Lower(text), Lower(needle), i, false);
      LowerOccurs(text, needle, i);
    }
    if Occurs(text, needle, true) {
      var i: nat :| OccursFrom(text, needle, i, true);
      LowerOccurs(text, needle, i);
    }
  }

  /** core neither begins nor ends with white space. */
  ghost predicate Tight(core: string) {
    core == "" || (!IsSpace(core[0]) && !IsSpace(core[|core| - 1]))
  }

  lemma {:induction false} TrimLeftDrops(pre: string, core: string)
    requires Blank(pre)
    ensures TrimLeft(pre + core) == TrimLeft(core)
  {
    if pre != "" {
      assert (pre + core)[1..] == pre[1..] + core;
      TrimLeftDrops(pre[1..], core);
    } else {
      assert pre + core == core;
    }
  }

  lemma {:induction false} TrimRightDrops(core: string, post: string)
    requires Blank(post)
    ensures TrimRight(core + post) == TrimRight(core)
  {
    if post != "" {
      var s := core + post;
      assert s[..|s| - 1] == core + post[..|post| - 1];
      TrimRightDrops(core, post[..|post| - 1]);
    } else {
      assert core + post == core;
    }
  }

  /** Trimming gives back the text between surrounding white space. */
  lemma TrimExact(pre: string, core: string, post: string)
    requires Blank(pre) && Blank(post) && Tight(core)
    ensures TrimSpace(pre + core + post) == core
  {
    assert pre + core + post == pre + (core + post);
    TrimLeftDrops(pre, core + post);
    if core == "" {
      assert core + post == post;
      TrimLeftDrops(post, "");
      assert post + "" == post;
    } else {
      assert TrimLeft(core + post) == core + post;
      TrimRightDrops(core, post);
    }
  }

  /** Trimming leaves nothing exactly of blank texts. */
  lemma TrimBlank(s: string)
    ensures TrimSpace(s) == "" <==> Blank(s)
  {
    if Blank(s) {
      TrimExact(s, "", "");
      assert s + "" + "" == s;
    } else {
      TrimKeeps(s);
    }
  }

  lemma {:induction false} TrimKeeps(s: string)
    requires !Blank(s)
    ensures TrimSpace(s) != ""
  {
    if IsSpace(s[0]) {
      TrimKeeps(s[1..]);
    } else {
      TrimRightKeeps(s);
    }
  }

  lemma {:induction false} TrimRightKeeps(s: string)
    requires s != "" && !IsSpace(s[0])
    ensures TrimRight(s) != ""
  {
    if |s| > 1 {
      TrimRightKeeps(s[..|s| - 1]);
    }
  }
}
