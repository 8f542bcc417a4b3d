/** fenceToolResult of chat/loop.ts: cap a tool's output, defang fence tokens in it, wrap it. */
module Fence {
  import opened Text

  const NAME := "untrusted-tool-output"
  const OPEN := "<" + NAME + ">"
  const CLOSE := "</" + NAME + ">"
  const MARK := "[fence-marker-removed]"
  const MAX_TOOL_RESULT_CHARS := 8000

  /** Folding of the /i flag: the upper-case ASCII letters. */
  function Fold(c: char): char {
    if 'A' <= c <= 'Z' then c + 32 as char else c
  }

  predicate SameFolded(a: string, b: string) {
    |a| == |b| && forall i :: 0 <= i < |a| ==> Fold(a[i]) == Fold(b[i])
  }

  /** s[i..] starts with the token, in any letter case. */
  predicate TokenAt(s: string, i: int, token: string) {
    0 <= i && i + |token| <= |s| && SameFolded(s[i..i + |token|], token)
  }

  /** No character that could start a token, a replacement, or the next line. */
  ghost predicate Inert(s: string) {
    forall i :: 0 <= i < |s| ==> s[i] != '<' && s[i] != '[' && s[i] != '\n'
  }

  /** The two delimiters and what replaces them inside the fence. */
  datatype Marks = Marks(open: string, close: string, removed: string) {
    predicate IsToken(token: string) {
      token == open || token == close
    }

    /** What the proofs use of the three strings. */
    ghost predicate Wellformed() {
      && |open| > 2 && open[0] == '<' && open[1] != '/' && Fold(open[1]) == open[1] && Inert(open[1..])
      && |close| > 2 && close[0] == '<' && close[1] == '/' && Inert(close[1..])
      && |removed| <= |open| && |removed| <= |close|
      && |removed| > 0 && removed[0] == '[' && (forall i :: 0 <= i < |removed| ==> removed[i] != '<')
    }

    /** Replaces every fence token, leftmost first, as the global regex does. */
    function Defang(s: string): string
      requires open != "" && close != ""
    {
      if s == "" then ""
      else if TokenAt(s, 0, open) then removed + Defang(s[|open|..])
      else if TokenAt(s, 0, close) then removed + Defang(s[|close|..])
      else [s[0]] + Defang(s[1..])
    }

    function Wrap(body: string): string {
      open + "\n" + body + "\n" + close
    }
  }

  const FENCE := Marks(OPEN, CLOSE, MARK)

  /** String.slice(0, end): a negative end counts from the back. */
  function SliceTo(s: string, end: int): string {
    if end >= 0 then s[..Min(end, |s|)] else s[..Max(0, |s| + end)]
  }

  function Capped(text: string, max: int): string {
    if |text| > max then SliceTo(text, max) + "\n…[truncated " + Decimal(|text| - max) + " chars]" else text
  }

  function FenceToolResult(text: string, max: int): string {
    FENCE.Wrap(FENCE.Defang(Capped(text, max)))
  }

  lemma {:induction false} FenceIsWellformed()
    ensures FENCE.Wellformed()
  {
    assert Inert(NAME);
    assert OPEN[1..] == NAME + ">" && CLOSE[1..] == "/" + NAME + ">";
    assert |NAME| == 21 && |MARK| == 22 && NAME[0] == 'u';
    assert forall i :: 0 <= i < |MARK| ==> MARK[i] != '<';
  }

  // ---- a defanged text holds no token ----

  /** A token piece without '[' at the front of a defanged text was already at the front of the text. */
  lemma {:induction false} FrontSurvives(f: Marks, s: string, p: string)
    requires f.Wellformed()
    requires forall i :: 0 <= i < |p| ==> p[i] != '['
    requires TokenAt(f.Defang(s), 0, p)
    ensures TokenAt(s, 0, p)
  {
    var d := f.Defang(s);
    if p != "" {
      assert d[0..0 + |p|][0] == d[0];
      assert d[0] != f.removed[0];
      assert d[1..] == f.Defang(s[1..]) && d[0] == s[0];
      assert d[1..][0..0 + |p| - 1] == d[0..0 + |p|][1..];
      FrontSurvives(f, s[1..], p[1..]);
      assert s[0..0 + |p|] == [s[0]] + s[1..][0..0 + |p| - 1];
      assert p == [p[0]] + p[1..];
    }
  }

  /** Shifting a token occurrence past a prefix. */
  lemma {:induction false} TokenAfter(prefix: string, s: string, i: int, token: string)
    requires i >= |prefix|
    ensures TokenAt(prefix + s, i, token) <==> TokenAt(s, i - |prefix|, token)
  {
    if i + |token| <= |prefix| + |s| {
      assert (prefix + s)[i..i + |token|] == s[i - |prefix|..i - |prefix| + |token|];
    }
  }

  lemma {:induction false} TokenStartsWithAngle(f: Marks, s: string, i: int, token: string)
    requires f.Wellformed() && f.IsToken(token)
    ensures TokenAt(s, i, token) ==> s[i] == '<'
  {
    if TokenAt(s, i, token) {
      assert s[i..i + |token|][0] == s[i];
    }
  }

  /** Letter by letter the same, or one the upper case and the other the lower case of an ASCII letter. */
  lemma {:induction false} TokenInAnyCase(s: string, i: int, token: string)
    requires 0 <= i && i + |token| <= |s|
    ensures TokenAt(s, i, token) <==>
      forall k :: 0 <= k < |token| ==>
        || s[i + k] == token[k]
        || ('A' <= s[i + k] <= 'Z' && s[i + k] as int + 32 == token[k] as int)
        || ('A' <= token[k] <= 'Z' && token[k] as int + 32 == s[i + k] as int)
  {
    var t := s[i..i + |token|];
    assert forall k :: 0 <= k < |token| ==> t[k] == s[i + k];
    if TokenAt(s, i, token) {
      forall k | 0 <= k < |token|
        ensures || s[i + k] == token[k]
                || ('A' <= s[i + k] <= 'Z' && s[i + k] as int + 32 == token[k] as int)
                || ('A' <= token[k] <= 'Z' && token[k] as int + 32 == s[i + k] as int)
      {
        assert Fold(t[k]) == Fold(token[k]);
      }
    }
  }

  /** In a defanged text no slice spells a token, in whatever mix of upper and lower case. */
  lemma {:induction false} DefangLeavesNoToken(f: Marks, s: string, i: int, token: string)
    requires f.Wellformed() && (token == f.open || token == f.close)
    ensures 0 <= i && i + |token| <= |f.Defang(s)| ==>
      exists k ::
        && 0 <= k < |token| && f.Defang(s)[i + k] != token[k]
        && !('A' <= f.Defang(s)[i + k] <= 'Z' && f.Defang(s)[i + k] as int + 32 == token[k] as int)
        && !('A' <= token[k] <= 'Z' && token[k] as int + 32 == f.Defang(s)[i + k] as int)
  {
    hide TokenAt;
    NoTokenIsLeft(f, s, i, token);
    if 0 <= i && i + |token| <= |f.Defang(s)| {
      TokenInAnyCase(f.Defang(s), i, token);
    }
  }

  lemma {:induction false} NoTokenIsLeft(f: Marks, s: string, i: int, token: string)
    requires f.Wellformed() && f.IsToken(token)
    ensures !TokenAt(f.Defang(s), i, token)
    decreases |s|
  {
    var d := f.Defang(s);
    if s == "" {
    } else if TokenAt(s, 0, f.open) || TokenAt(s, 0, f.close) {
      var rest := if TokenAt(s, 0, f.open) then s[|f.open|..] else s[|f.close|..];
      assert d == f.removed + f.Defang(rest);
      if i >= |f.removed| {
        TokenAfter(f.removed, f.Defang(rest), i, token);
        NoTokenIsLeft(f, rest, i - |f.removed|, token);
      } else if i >= 0 {
        assert d[i] == f.removed[i];
        TokenStartsWithAngle(f, d, i, token);
      }
    } else if i > 0 {
      TokenAfter([s[0]], f.Defang(s[1..]), i, token);
      NoTokenIsLeft(f, s[1..], i - 1, token);
    } else if TokenAt(d, 0, token) {
      FrontSurvives(f, s, token);
    }
  }

  lemma {:induction false} DefangNeverGrows(f: Marks, s: string)
    requires f.Wellformed()
    ensures |f.Defang(s)| <= |s|
  {
    assert f.IsToken(f.open) && f.IsToken(f.close);
    if s != "" {
      if TokenAt(s, 0, f.open) {
        DefangNeverGrows(f, s[|f.open|..]);
      } else if TokenAt(s, 0, f.close) {
        DefangNeverGrows(f, s[|f.close|..]);
      } else {
        DefangNeverGrows(f, s[1..]);
      }
    }
  }

  ghost predicate Clean(f: Marks, s: string) {
    forall i, token :: f.IsToken(token) ==> !TokenAt(s, i, token)
  }

  lemma {:induction false} TailIsClean(f: Marks, s: string)
    requires s != "" && Clean(f, s)
    ensures Clean(f, s[1..]) && !TokenAt(s, 0, f.open) && !TokenAt(s, 0, f.close)
  {
    forall i, token | f.IsToken(token) ensures !TokenAt(s[1..], i, token) {
      assert s == [s[0]] + s[1..];
      if i >= 0 {
        TokenAfter([s[0]], s[1..], i + 1, token);
      }
    }
    assert f.IsToken(f.open) && f.IsToken(f.close);
  }

  /** Text without a fence token is not touched. */
  lemma {:induction false} DefangKeepsCleanText(f: Marks, s: string)
    requires f.Wellformed() && Clean(f, s)
    ensures f.Defang(s) == s
  {
    if s != "" {
      TailIsClean(f, s);
      DefangKeepsCleanText(f, s[1..]);
    }
  }

  lemma {:induction false} OneTokenAtATime(f: Marks, s: string)
    requires f.Wellformed()
    ensures !TokenAt(s, 0, f.open) || !TokenAt(s, 0, f.close)
  {
    if |f.open| <= |s| && |f.close| <= |s| {
      assert s[0..0 + |f.open|][1] == s[1] && s[0..0 + |f.close|][1] == s[1];
    }
  }

  predicate NoTokenBefore(f: Marks, s: string, i: int) {
    forall k :: 0 <= k < i ==> !TokenAt(s, k, f.open) && !TokenAt(s, k, f.close)
  }

  lemma {:induction false} TailOfNoToken(f: Marks, s: string, i: int)
    requires f.Wellformed() && s != "" && i > 0 && NoTokenBefore(f, s, i)
    ensures NoTokenBefore(f, s[1..], i - 1)
    ensures f.Defang(s) == [s[0]] + f.Defang(s[1..])
  {
    assert !TokenAt(s, 0, f.open) && !TokenAt(s, 0, f.close);
    assert s == [s[0]] + s[1..];
    forall k | 0 <= k < i - 1 ensures !TokenAt(s[1..], k, f.open) && !TokenAt(s[1..], k, f.close) {
      TokenAfter([s[0]], s[1..], k + 1, f.open);
      TokenAfter([s[0]], s[1..], k + 1, f.close);
    }
  }

  lemma {:induction false} DefangAtToken(f: Marks, t: string, rest: string)
    requires f.Wellformed() && (SameFolded(t, f.open) || SameFolded(t, f.close))
    ensures f.Defang(t + rest) == f.removed + f.Defang(rest)
  {
    OneTokenAtATime(f, t + rest);
    assert (t + rest)[0..0 + |t|] == t && (t + rest)[|t|..] == rest;
  }

  /** The first token of a text is replaced, what precedes it stays, and the rest is defanged in turn. */
  lemma {:induction false} DefangReplacesFirst(f: Marks, before: string, t: string, rest: string)
    requires f.Wellformed() && (SameFolded(t, f.open) || SameFolded(t, f.close))
    requires NoTokenBefore(f, before + (t + rest), |before|)
    ensures f.Defang(before + (t + rest)) == before + (f.removed + f.Defang(rest))
  {
    hide TokenAt, SameFolded;
    var s := before + (t + rest);
    if before == "" {
      assert s == t + rest;
      DefangAtToken(f, t, rest);
    } else {
      assert s[1..] == before[1..] + (t + rest);
      TailOfNoToken(f, s, |before|);
      DefangReplacesFirst(f, before[1..], t, rest);
    }
  }

  // ---- the fenced result ----

  /** A token inside a + "\n" + b lies wholly in a or wholly in b. */
  lemma {:induction false} TokenAcrossNewline(f: Marks, a: string, b: string, i: int, token: string)
    requires f.Wellformed() && f.IsToken(token)
    ensures TokenAt(a + "\n" + b, i, token) <==> TokenAt(a, i, token) || TokenAt(b, i - |a| - 1, token)
  {
    var r := a + "\n" + b;
    if i > |a| {
      TokenAfter(a + "\n", b, i, token);
    } else if 0 <= i && i + |token| <= |a| {
      assert r[i..i + |token|] == a[i..i + |token|];
    } else if 0 <= i && i + |token| <= |r| {
      hide SameFolded;
      assert r[i..i + |token|][|a| - i] == '\n';
      NoNewlineInToken(f, r[i..i + |token|], token, |a| - i);
    }
  }

  lemma {:induction false} NoNewlineInToken(f: Marks, s: string, token: string, k: nat)
    requires f.Wellformed() && f.IsToken(token) && k < |s| && s[k] == '\n'
    ensures !SameFolded(s, token)
  {
    if k > 0 && k < |token| {
      assert token[k] == token[1..][k - 1];
    }
  }

  lemma {:induction false} TokenInToken(f: Marks, s: string, i: int, token: string)
    requires f.Wellformed() && f.IsToken(s) && f.IsToken(token)
    ensures TokenAt(s, i, token) <==> i == 0 && token == s
  {
    if TokenAt(s, i, token) {
      TokenStartsWithAngle(f, s, i, token);
      assert i == 0;
      assert s[0..0 + |token|][1] == s[1];
    } else {
      assert s[0..0 + |s|] == s;
    }
  }

  /** Fence integrity: whatever the tool printed, the fenced result spells the opening token only at its front and
      the closing token only at its end, in whatever mix of upper and lower case. */
  lemma {:induction false} FenceHolds(text: string, max: int, i: int, token: string)
    requires token == "<untrusted-tool-output>" || token == "</untrusted-tool-output>"
    requires 0 <= i && i + |token| <= |FenceToolResult(text, max)|
    ensures var r := FenceToolResult(text, max);
      (forall k :: 0 <= k < |token| ==>
         r[i + k] == token[k] || ('A' <= r[i + k] <= 'Z' && r[i + k] as int + 32 == token[k] as int))
      <==> i == if token == "<untrusted-tool-output>" then 0 else |r| - |token|
  {
    hide *;
    TokensAre();
    FencedTokens(text, max, i, token);
    TokenInAnyCase(FenceToolResult(text, max), i, token);
    TokenHasNoCapital(token);
  }

  lemma {:induction false} TokenHasNoCapital(token: string)
    requires token == OPEN || token == CLOSE
    ensures forall k :: 0 <= k < |token| ==> !('A' <= token[k] <= 'Z')
  {
    assert forall k :: 0 <= k < |NAME| ==> !('A' <= NAME[k] <= 'Z');
  }

  lemma {:induction false} FencedTokens(text: string, max: int, i: int, token: string)
    requires token == OPEN || token == CLOSE
    ensures var r := FenceToolResult(text, max);
      TokenAt(r, i, token) <==> (token == OPEN && i == 0) || (token == CLOSE && i == |r| - |CLOSE|)
  {
    FenceIsWellformed();
    WrappedTokens(FENCE, Capped(text, max), i, token);
  }

  lemma {:induction false} TokensAre()
    ensures OPEN == "<untrusted-tool-output>" && CLOSE == "</untrusted-tool-output>"
    ensures OPEN != CLOSE
  {
    assert OPEN[1] != CLOSE[1];
  }

  lemma {:induction false} WrappedTokens(f: Marks, text: string, i: int, token: string)
    requires f.Wellformed() && f.IsToken(token)
    ensures var r := f.Wrap(f.Defang(text));
            TokenAt(r, i, token)
            <==> (token == f.open && i == 0) || (token == f.close && i == |r| - |f.close|)
  {
    var body := f.Defang(text);
    var head := f.open + "\n" + body;
    TokenAcrossNewline(f, head, f.close, i, token);
    TokenAcrossNewline(f, f.open, body, i, token);
    TokenInToken(f, f.open, i, token);
    TokenInToken(f, f.close, i - |head| - 1, token);
    NoTokenIsLeft(f, text, i - |f.open| - 1, token);
  }

  /** What is inside the fence: the capped text, which starts with the first max characters, defanged and never
      lengthened by it; a short clean output word for word. */
  lemma {:induction false} FencedBody(text: string, max: int)
    ensures |FenceToolResult(text, max)| <= |OPEN| + |Capped(text, max)| + |CLOSE| + 2
    ensures |text| > max >= 0 ==>
      Capped(text, max) == text[..max] + "\n…[truncated " + Decimal(|text| - max) + " chars]"
    ensures max < 0 && |text| > -max ==>
      Capped(text, max) == text[..|text| + max] + "\n…[truncated " + Decimal(|text| - max) + " chars]"
    ensures |text| <= max && Clean(FENCE, text) ==> FenceToolResult(text, max) == OPEN + "\n" + text + "\n" + CLOSE
  {
    FenceIsWellformed();
    DefangNeverGrows(FENCE, Capped(text, max));
    if |text| <= max && Clean(FENCE, text) {
      DefangKeepsCleanText(FENCE, text);
    }
  }
}
