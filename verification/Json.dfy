/** JSON text: JSON.stringify of the values the bus sends, and a reader of RFC 8259 texts (numbers:
    integers only; \u escapes of surrogates are not read). */
module Json {
  import opened Text

  datatype Value =
    | Null
    | Bool(b: bool)
    | Number(n: int)
    | String(s: string)
    | Array(elements: seq<Value>)
    | Object(members: seq<Member>)

  datatype Member = Member(key: string, value: Value)

  // ---- printer ----

  function HexDigit(d: nat): char
    requires d < 16
  {
    if d < 10 then '0' + d as char else 'a' + (d - 10) as char
  }

  /** QuoteJSONString: section 7 of RFC 8259 escapes what it must. */
  function EscapeChar(c: char): (e: string)
    ensures 1 <= |e| <= 6
  {
    if c == '"' then "\\\""
    else if c == '\\' then "\\\\"
    else if c as int == 8 then "\\b"
    else if c == '\t' then "\\t"
    else if c == '\n' then "\\n"
    else if c as int == 12 then "\\f"
    else if c == '\r' then "\\r"
    else if (c as int) < 32 then ['\\', 'u', '0', '0', HexDigit(c as int / 16), HexDigit(c as int % 16)]
    else [c]
  }

  function Escape(s: string): (e: string)
    ensures |e| >= |s|
  {
    if s == "" then "" else EscapeChar(s[0]) + Escape(s[1..])
  }

  function PrintString(s: string): string {
    ['"'] + (Escape(s) + ['"'])
  }

  function PrintNumber(n: int): (s: string)
    ensures n >= 0 ==> s == Decimal(n)
  {
    if n < 0 then ['-'] + Decimal(-n) else Decimal(n)
  }

  function Print(v: Value): string
    decreases v, 1
  {
    match v
    case Null => "null"
    case Bool(b) => if b then "true" else "false"
    case Number(n) => PrintNumber(n)
    case String(s) => PrintString(s)
    case Array(elements) => ['['] + (PrintElements(elements) + [']'])
    case Object(members) => ['{'] + (PrintMembers(members) + ['}'])
  }

  function PrintElements(elements: seq<Value>): string
    decreases elements, 0
  {
    if elements == [] then ""
    else Print(elements[0]) + (if |elements| == 1 then "" else [','] + PrintElements(elements[1..]))
  }

  function PrintMembers(members: seq<Member>): string
    decreases members, 0
  {
    if members == [] then ""
    else
      PrintString(members[0].key) + ([':'] + (Print(members[0].value)
      + (if |members| == 1 then "" else [','] + PrintMembers(members[1..]))))
  }

  // ---- reader ----

  datatype Parsed<+T> = Fail | Done(value: T, rest: string)

  predicate IsWs(c: char): (ws: bool)
    ensures ws <==> c in " \t\n\r"
  {
    c == ' ' || c == '\t' || c == '\n' || c == '\r'
  }

  function SkipWs(s: string): (r: string)
    ensures |r| <= |s|
  {
    if s != "" && IsWs(s[0]) then SkipWs(s[1..]) else s
  }

  function HexValue(c: char): Option<nat> {
    if IsDigit(c) then Some(DigitValue(c))
    else if 'a' <= c <= 'f' then Some((c - 'a') as nat + 10)
    else if 'A' <= c <= 'F' then Some((c - 'A') as nat + 10)
    else None
  }

  function HexChar(s: string): Option<char>
    requires |s| == 4
  {
    var (a, b, c, d) := (HexValue(s[0]), HexValue(s[1]), HexValue(s[2]), HexValue(s[3]));
    if a.None? || b.None? || c.None? || d.None? then None
    else
      var code := ((a.value * 16 + b.value) * 16 + c.value) * 16 + d.value;
      if code < 0xD800 || 0xE000 <= code < 0x10000 then Some(code as char) else None
  }

  function SimpleEscape(c: char): Option<char> {
    if c == '"' || c == '\\' || c == '/' then Some(c)
    else if c == 'b' then Some(8 as char)
    else if c == 'f' then Some(12 as char)
    else if c == 'n' then Some('\n')
    else if c == 'r' then Some('\r')
    else if c == 't' then Some('\t')
    else None
  }

  /** One character of a string literal, escaped or not. */
  function ParseChar(s: string): (r: Parsed<char>)
    ensures r.Done? ==> |r.rest| < |s|
  {
    if s == "" || (s[0] as int) < 32 || s[0] == '"' then Fail
    else if s[0] != '\\' then Done(s[0], s[1..])
    else if |s| < 2 then Fail
    else if s[1] == 'u' then
      if |s| < 6 || HexChar(s[2..6]).None? then Fail else Done(HexChar(s[2..6]).value, s[6..])
    else if SimpleEscape(s[1]).None? then Fail
    else Done(SimpleEscape(s[1]).value, s[2..])
  }

  /** After the opening quote. */
  function ParseString(s: string): (r: Parsed<string>)
    ensures r.Done? ==> |r.rest| < |s|
    decreases |s|
  {
    if s != "" && s[0] == '"' then Done("", s[1..])
    else
      var c := ParseChar(s);
      if c.Fail? then Fail
      else
        var more := ParseString(c.rest);
        if more.Fail? then Fail else Done([c.value] + more.value, more.rest)
  }

  function Digits(s: string): (n: nat)
    ensures n <= |s| && forall i :: 0 <= i < n ==> IsDigit(s[i])
  {
    if s != "" && IsDigit(s[0]) then 1 + Digits(s[1..]) else 0
  }

  function ParseNatural(s: string): (r: Parsed<nat>)
    ensures r.Done? ==> |r.rest| < |s|
  {
    var n := Digits(s);
    if n == 0 || (n > 1 && s[0] == '0') then Fail
    else if n < |s| && (s[n] == '.' || s[n] == 'e' || s[n] == 'E') then Fail
    else Done(Numeral(s[..n]), s[n..])
  }

  predicate StartsWith(s: string, p: string) { |p| <= |s| && s[..|p|] == p }

  function ParseValue(s: string): (r: Parsed<Value>)
    ensures r.Done? ==> |r.rest| < |s|
    decreases |s|, 0
  {
    if s == "" then Fail
    else if s[0] == '"' then
      var r := ParseString(s[1..]);
      if r.Fail? then Fail else Done(String(r.value), r.rest)
    else if s[0] == '{' then
      var inside := SkipWs(s[1..]);
      if inside != "" && inside[0] == '}' then Done(Object([]), inside[1..])
      else
        var r := ParseMembers(inside);
        if r.Fail? then Fail else Done(Object(r.value), r.rest)
    else if s[0] == '[' then
      var inside := SkipWs(s[1..]);
      if inside != "" && inside[0] == ']' then Done(Array([]), inside[1..])
      else
        var r := ParseElements(inside);
        if r.Fail? then Fail else Done(Array(r.value), r.rest)
    else if s[0] == '-' then
      var r := ParseNatural(s[1..]);
      if r.Fail? then Fail else Done(Number(0 - r.value), r.rest)
    else if IsDigit(s[0]) then
      var r := ParseNatural(s);
      if r.Fail? then Fail else Done(Number(r.value), r.rest)
    else if StartsWith(s, "true") then Done(Bool(true), s[4..])
    else if StartsWith(s, "false") then Done(Bool(false), s[5..])
    else if StartsWith(s, "null") then Done(Null, s[4..])
    else Fail
  }

  /** One or more elements and the closing bracket. */
  function ParseElements(s: string): (r: Parsed<seq<Value>>)
    ensures r.Done? ==> |r.rest| < |s|
    decreases |s|, 1
  {
    var v := ParseValue(s);
    if v.Fail? then Fail
    else
      var after := SkipWs(v.rest);
      if after == "" then Fail
      else if after[0] == ']' then Done([v.value], after[1..])
      else if after[0] != ',' then Fail
      else
        var more := ParseElements(SkipWs(after[1..]));
        if more.Fail? then Fail else Done([v.value] + more.value, more.rest)
  }

  /** "key" : value */
  function ParseMember(s: string): (r: Parsed<Member>)
    ensures r.Done? ==> |r.rest| < |s|
    decreases |s|, 1
  {
    if s == "" || s[0] != '"' then Fail
    else
      var key := ParseString(s[1..]);
      if key.Fail? then Fail
      else
        var colon := SkipWs(key.rest);
        if colon == "" || colon[0] != ':' then Fail
        else
          var v := ParseValue(SkipWs(colon[1..]));
          if v.Fail? then Fail else Done(Member(key.value, v.value), v.rest)
  }

  /** One or more members and the closing brace. */
  function ParseMembers(s: string): (r: Parsed<seq<Member>>)
    ensures r.Done? ==> |r.rest| < |s|
    decreases |s|, 2
  {
    var m := ParseMember(s);
    if m.Fail? then Fail
    else
      var after := SkipWs(m.rest);
      if after == "" then Fail
      else if after[0] == '}' then Done([m.value], after[1..])
      else if after[0] != ',' then Fail
      else
        var more := ParseMembers(SkipWs(after[1..]));
        if more.Fail? then Fail else Done([m.value] + more.value, more.rest)
  }

  /** JSON.parse of a whole text. */
  function Parse(s: string): Option<Value> {
    var r := ParseValue(SkipWs(s));
    if r.Done? && SkipWs(r.rest) == "" then Some(r.value) else None
  }

  // ---- round trip ----

  lemma {:induction false} CharReadsBack(c: char, rest: string)
    ensures ParseChar(EscapeChar(c) + rest) == Done(c, rest)
    ensures EscapeChar(c)[0] != '"'
  {
    var e := EscapeChar(c);
    var s := e + rest;
    assert s[0] == e[0];
    if |e| == 1 {
      assert s[1..] == rest;
    } else if |e| == 2 {
      assert s[1] == e[1] && s[2..] == rest;
    } else {
      assert s[1] == e[1] == 'u' && s[6..] == rest;
      ControlReadsBack(c);
      assert s[2..6] == e[2..6];
    }
  }

  lemma {:induction false} ControlReadsBack(c: char)
    requires (c as int) < 32
    ensures HexChar(['0', '0', HexDigit(c as int / 16), HexDigit(c as int % 16)]) == Some(c)
  {
    var (h, l) := (c as int / 16, c as int % 16);
    assert HexValue(HexDigit(h)) == Some(h) && HexValue(HexDigit(l)) == Some(l);
    assert h * 16 + l == c as int;
  }

  lemma {:induction false} StringStep(c: char, tail: string)
    requires ParseString(tail).Done?
    ensures ParseString(EscapeChar(c) + tail) == Done([c] + ParseString(tail).value, ParseString(tail).rest)
  {
    CharReadsBack(c, tail);
    assert (EscapeChar(c) + tail)[0] == EscapeChar(c)[0];
  }

  lemma {:induction false} StringReadsBack(s: string, rest: string)
    ensures ParseString(Escape(s) + (['"'] + rest)) == Done(s, rest)
  {
    if s == "" {
      assert Escape(s) + (['"'] + rest) == ['"'] + rest;
      assert (['"'] + rest)[1..] == rest;
    } else {
      var tail := Escape(s[1..]) + (['"'] + rest);
      StringReadsBack(s[1..], rest);
      StringStep(s[0], tail);
      PlusAssociates(EscapeChar(s[0]), Escape(s[1..]), ['"'] + rest);
      assert s == [s[0]] + s[1..];
    }
  }

  /** What may follow a value. */
  predicate Ends(rest: string) {
    rest == "" || rest[0] == ',' || rest[0] == '}' || rest[0] == ']'
  }

  lemma {:induction false} DigitsOf(d: string, rest: string)
    requires (forall i :: 0 <= i < |d| ==> IsDigit(d[i])) && Ends(rest)
    ensures Digits(d + rest) == |d|
  {
    if d == "" {
      assert d + rest == rest;
    } else {
      DigitsOf(d[1..], rest);
      assert (d + rest)[1..] == d[1..] + rest;
    }
  }

  lemma {:induction false} NoLeadingZero(n: nat)
    ensures |Decimal(n)| > 1 ==> Decimal(n)[0] != '0'
    ensures n > 0 ==> Decimal(n)[0] != '0'
  {
    if n >= 10 {
      NoLeadingZero(n / 10);
    }
  }

  lemma {:induction false} NaturalReadsBack(n: nat, rest: string)
    requires Ends(rest)
    ensures ParseNatural(Decimal(n) + rest) == Done(n, rest)
  {
    var d := Decimal(n);
    DigitsOf(d, rest);
    NoLeadingZero(n);
    NumeralOfDecimal(n);
    assert (d + rest)[..|d|] == d && (d + rest)[|d|..] == rest;
    assert (d + rest)[0] == d[0];
  }

  lemma {:induction false} NaturalValue(n: nat, rest: string)
    requires Ends(rest)
    ensures ParseValue(Decimal(n) + rest) == Done(Number(n), rest)
  {
    NaturalReadsBack(n, rest);
    assert (Decimal(n) + rest)[0] == Decimal(n)[0];
  }

  lemma {:induction false} NegativeValue(n: nat, rest: string)
    requires Ends(rest)
    ensures ParseValue(['-'] + (Decimal(n) + rest)) == Done(Number(0 - n), rest)
  {
    NaturalReadsBack(n, rest);
    assert (['-'] + (Decimal(n) + rest))[1..] == Decimal(n) + rest;
  }

  lemma {:induction false} NumberReadsBack(n: int, rest: string)
    requires Ends(rest)
    ensures ParseValue(PrintNumber(n) + rest) == Done(Number(n), rest)
  {
    hide ParseValue, Decimal, Ends;
    if n < 0 {
      PlusAssociates(['-'], Decimal(-n), rest);
      NegativeValue(-n, rest);
    } else {
      NaturalValue(n, rest);
    }
  }

  lemma {:induction false} QuotedReadsBack(s: string, rest: string)
    ensures ParseValue(PrintString(s) + rest) == Done(String(s), rest)
  {
    var inside := Escape(s) + (['"'] + rest);
    StringReadsBack(s, rest);
    hide Escape, ParseString;
    assert PrintString(s) + rest == ['"'] + inside;
    assert (['"'] + inside)[0] == '"' && (['"'] + inside)[1..] == inside;
  }

  lemma {:induction false} WordReadsBack(rest: string)
    ensures ParseValue("null" + rest) == Done(Null, rest)
    ensures ParseValue("true" + rest) == Done(Bool(true), rest)
    ensures ParseValue("false" + rest) == Done(Bool(false), rest)
  {
    var n, t, f := "null" + rest, "true" + rest, "false" + rest;
    assert n[0] == 'n' && n[..4] == "null" && n[4..] == rest;
    assert t[0] == 't' && t[..4] == "true" && t[4..] == rest;
    assert f[0] == 'f' && f[..5] == "false" && f[5..] == rest;
    assert !StartsWith(n, "true") by { assert "true"[0] == 't'; }
    assert !StartsWith(n, "false") by { assert "false"[0] == 'f'; }
    assert !StartsWith(f, "true") by { assert "true"[0] == 't'; }
  }

  lemma {:induction false} PrintStart(v: Value)
    ensures Print(v) != "" && !IsWs(Print(v)[0]) && Print(v)[0] != ']'
  {
    if v.Number? {
      assert v.n >= 0 ==> IsDigit(Decimal(v.n)[0]);
    }
  }

  // ---- one step of the reader ----

  predicate Solid(s: string) { s != "" && !IsWs(s[0]) }

  lemma {:induction false} SkipNothing(s: string)
    requires Solid(s)
    ensures SkipWs(s) == s
  {
  }

  lemma {:induction false} ArrayStep(inside: string)
    requires Solid(inside)
    ensures inside[0] == ']' ==> ParseValue(['['] + inside) == Done(Array([]), inside[1..])
    ensures inside[0] != ']' && ParseElements(inside).Done?
            ==> ParseValue(['['] + inside) == Done(Array(ParseElements(inside).value), ParseElements(inside).rest)
  {
    assert (['['] + inside)[1..] == inside;
    SkipNothing(inside);
  }

  lemma {:induction false} ObjectStep(inside: string)
    requires Solid(inside)
    ensures inside[0] == '}' ==> ParseValue(['{'] + inside) == Done(Object([]), inside[1..])
    ensures inside[0] != '}' && ParseMembers(inside).Done?
            ==> ParseValue(['{'] + inside) == Done(Object(ParseMembers(inside).value), ParseMembers(inside).rest)
  {
    assert (['{'] + inside)[1..] == inside;
    SkipNothing(inside);
  }

  lemma {:induction false} ElementsEnd(s: string, v: Value, rest: string)
    requires ParseValue(s) == Done(v, [']'] + rest)
    ensures ParseElements(s) == Done([v], rest)
  {
    SkipNothing([']'] + rest);
    assert ([']'] + rest)[1..] == rest;
  }

  lemma {:induction false} ElementsMore(s: string, v: Value, more: string)
    requires ParseValue(s) == Done(v, [','] + more) && Solid(more) && ParseElements(more).Done?
    ensures ParseElements(s) == Done([v] + ParseElements(more).value, ParseElements(more).rest)
  {
    SkipNothing([','] + more);
    assert ([','] + more)[1..] == more;
    SkipNothing(more);
  }

  lemma {:induction false} MembersEnd(s: string, m: Member, rest: string)
    requires ParseMember(s) == Done(m, ['}'] + rest)
    ensures ParseMembers(s) == Done([m], rest)
  {
    SkipNothing(['}'] + rest);
    assert (['}'] + rest)[1..] == rest;
  }

  lemma {:induction false} MembersMore(s: string, m: Member, more: string)
    requires ParseMember(s) == Done(m, [','] + more) && Solid(more) && ParseMembers(more).Done?
    ensures ParseMembers(s) == Done([m] + ParseMembers(more).value, ParseMembers(more).rest)
  {
    SkipNothing([','] + more);
    assert ([','] + more)[1..] == more;
    SkipNothing(more);
  }

  // ---- the round trip of every value ----

  /** Every value's text, followed by anything that may follow a value, reads back. */
  lemma {:induction false} ValueReadsBack(v: Value, rest: string)
    requires Ends(rest)
    ensures ParseValue(Print(v) + rest) == Done(v, rest)
    decreases v, 3
  {
    match v {
      case Array(elements) =>
        ArrayReadsBack(elements, rest);
      case Object(members) =>
        ObjectReadsBack(members, rest);
      case String(s) =>
        QuotedReadsBack(s, rest);
      case Number(n) =>
        NumberReadsBack(n, rest);
      case _ =>
        WordReadsBack(rest);
    }
  }

  lemma {:induction false} ArrayReadsBack(elements: seq<Value>, rest: string)
    ensures ParseValue(['['] + (PrintElements(elements) + [']']) + rest) == Done(Array(elements), rest)
    decreases elements, 2
  {
    var end := [']'] + rest;
    var inside := PrintElements(elements) + end;
    assert ['['] + (PrintElements(elements) + [']']) + rest == ['['] + inside;
    if elements == [] {
      assert inside == end && end[1..] == rest;
    } else {
      ElementsReadBack(elements, rest);
      ElementsStart(elements, end);
    }
    ArrayStep(inside);
  }

  lemma {:induction false} ElementsStart(elements: seq<Value>, end: string)
    requires elements != []
    ensures Solid(PrintElements(elements) + end) && (PrintElements(elements) + end)[0] != ']'
  {
    PrintStart(elements[0]);
    assert (PrintElements(elements) + end)[0] == Print(elements[0])[0];
  }

  lemma {:induction false} ElementsReadBack(elements: seq<Value>, rest: string)
    requires elements != []
    ensures ParseElements(PrintElements(elements) + ([']'] + rest)) == Done(elements, rest)
    decreases elements, 1
  {
    var v, end := elements[0], [']'] + rest;
    var more := PrintElements(elements[1..]) + end;
    var tail := if |elements| == 1 then end else [','] + more;
    ElementsText(elements, end);
    ValueReadsBack(v, tail);
    if |elements| > 1 {
      ElementsReadBack(elements[1..], rest);
      ElementsStart(elements[1..], end);
      ElementsMore(Print(v) + tail, v, more);
      assert [v] + elements[1..] == elements;
    } else {
      ElementsEnd(Print(v) + tail, v, rest);
      assert [v] == elements;
    }
  }

  lemma {:induction false} ElementsText(elements: seq<Value>, end: string)
    requires elements != []
    ensures PrintElements(elements) + end
         == Print(elements[0]) + (if |elements| == 1 then end else [','] + (PrintElements(elements[1..]) + end))
  {
    if |elements| == 1 {
      assert "" + end == end;
      PlusAssociates(Print(elements[0]), "", end);
    } else {
      PlusAssociates(Print(elements[0]), [','] + PrintElements(elements[1..]), end);
      PlusAssociates([','], PrintElements(elements[1..]), end);
    }
  }

  lemma {:induction false} ObjectReadsBack(members: seq<Member>, rest: string)
    ensures ParseValue(['{'] + (PrintMembers(members) + ['}']) + rest) == Done(Object(members), rest)
    decreases members, 2
  {
    var end := ['}'] + rest;
    var inside := PrintMembers(members) + end;
    assert ['{'] + (PrintMembers(members) + ['}']) + rest == ['{'] + inside;
    if members == [] {
      assert inside == end && end[1..] == rest;
    } else {
      MembersReadBack(members, rest);
      MembersStart(members, end);
    }
    ObjectStep(inside);
  }

  lemma {:induction false} MembersStart(members: seq<Member>, end: string)
    requires members != []
    ensures Solid(PrintMembers(members) + end) && (PrintMembers(members) + end)[0] == '"'
  {
    assert PrintString(members[0].key)[0] == '"';
  }

  lemma {:induction false} MemberReadsBack(m: Member, tail: string)
    requires ParseValue(Print(m.value) + tail) == Done(m.value, tail)
    ensures ParseMember(PrintString(m.key) + ([':'] + (Print(m.value) + tail))) == Done(m, tail)
  {
    var v := Print(m.value) + tail;
    PrintStart(m.value);
    assert v[0] == Print(m.value)[0];
    MemberStep(m.key, v);
  }

  lemma {:induction false} MemberStep(key: string, v: string)
    requires Solid(v) && ParseValue(v).Done?
    ensures ParseMember(PrintString(key) + ([':'] + v)) == Done(Member(key, ParseValue(v).value), ParseValue(v).rest)
  {
    var colon := [':'] + v;
    var inside := Escape(key) + (['"'] + colon);
    StringReadsBack(key, colon);
    assert PrintString(key) + colon == ['"'] + inside;
    assert (['"'] + inside)[1..] == inside;
    SkipNothing(colon);
    assert colon[1..] == v;
    SkipNothing(v);
  }

  lemma {:induction false} MembersReadBack(members: seq<Member>, rest: string)
    requires members != []
    ensures ParseMembers(PrintMembers(members) + (['}'] + rest)) == Done(members, rest)
    decreases members, 1
  {
    hide Print, PrintString, PrintMembers, ParseValue, ParseMember, ParseMembers;
    var m, end := members[0], ['}'] + rest;
    var more := PrintMembers(members[1..]) + end;
    var tail := if |members| == 1 then end else [','] + more;
    MembersText(members, end);
    ValueReadsBack(m.value, tail);
    MemberReadsBack(m, tail);
    if |members| > 1 {
      MembersReadBack(members[1..], rest);
      MembersStart(members[1..], end);
      MembersMore(PrintMembers(members) + end, m, more);
      assert [m] + members[1..] == members;
    } else {
      MembersEnd(PrintMembers(members) + end, m, rest);
      assert [m] == members;
    }
  }

  lemma {:induction false} MembersText(members: seq<Member>, end: string)
    requires members != []
    ensures PrintMembers(members) + end
         == PrintString(members[0].key)
            + ([':'] + (Print(members[0].value)
            + (if |members| == 1 then end else [','] + (PrintMembers(members[1..]) + end))))
  {
    if |members| == 1 {
      assert "" + end == end;
      Associate(PrintString(members[0].key), [':'], Print(members[0].value), "", end);
    } else {
      var more := PrintMembers(members[1..]);
      Associate(PrintString(members[0].key), [':'], Print(members[0].value), [','] + more, end);
      PlusAssociates([','], more, end);
    }
  }

  lemma {:induction false} Associate(a: string, b: string, c: string, d: string, e: string)
    ensures a + (b + (c + d)) + e == a + (b + (c + (d + e)))
  {
  }

  /** JSON.parse(JSON.stringify(v)) is v. */
  lemma {:induction false} ParseOfPrint(v: Value)
    ensures Parse(Print(v)) == Some(v)
  {
    ValueReadsBack(v, "");
    PrintStart(v);
    SkipNothing(Print(v));
    assert Print(v) + "" == Print(v);
  }
}
