/** Logical-replication SQL of backups/replication.ts: a libpq connection string inside an SQL literal,
    read back through both layers. */
module Replication {
  import opened Text

  datatype ReplicaTarget = ReplicaTarget(host: string, port: nat, user: string, password: string, database: string)

  // ---- the printers ----

  predicate IsSafe(c: char) { 'a' <= c <= 'z' || '0' <= c <= '9' }

  /** Runs of unsafe characters of the lower-cased id become one underscore. */
  function SafeSuffix(lowered: string): string {
    if lowered == "" then ""
    else if IsSafe(lowered[0]) then [lowered[0]] + SafeSuffix(lowered[1..])
    else if |lowered| > 1 && !IsSafe(lowered[1]) then SafeSuffix(lowered[1..])
    else "_" + SafeSuffix(lowered[1..])
  }

  function PublicationName(lowered: string): string { "ss_pub_" + SafeSuffix(lowered) }

  function SubscriptionName(lowered: string): string { "ss_sub_" + SafeSuffix(lowered) }

  function LibpqQuote(v: string): string {
    "'" + ReplaceChar(ReplaceChar(v, '\\', "\\\\"), '\'', "\\'") + "'"
  }

  /** `key='value'` pairs separated by spaces. */
  function ConnString(pairs: seq<(string, string)>): string {
    if pairs == [] then ""
    else if |pairs| == 1 then pairs[0].0 + "=" + LibpqQuote(pairs[0].1)
    else pairs[0].0 + "=" + LibpqQuote(pairs[0].1) + " " + ConnString(pairs[1..])
  }

  function Fields(t: ReplicaTarget): seq<(string, string)> {
    [("host", t.host), ("port", Decimal(t.port)), ("user", t.user), ("password", t.password), ("dbname", t.database)]
  }

  function ReplicationConnString(t: ReplicaTarget): string {
    ConnString(Fields(t))
  }

  function CreateSubscriptionSql(lowered: string, primary: ReplicaTarget): string {
    var conn := ReplaceChar(ReplicationConnString(primary), '\'', "''");
    "CREATE SUBSCRIPTION \"" + SubscriptionName(lowered) + "\" "
    + ("CONNECTION '" + conn + "' " + ("PUBLICATION \"" + PublicationName(lowered) + "\";"))
  }

  // ---- reader of libpq keyword/value connection strings ----

  predicate IsSpace(c: char): (space: bool)
    ensures space <==> c in " \t\n\U{B}\U{C}\r"
  {
    c == ' ' || c == '\t' || c == '\n' || c == '\r' || c == 11 as char || c == 12 as char
  }

  datatype Scan = Scan(text: string, rest: string)

  function SkipSpaces(s: string): (r: string)
    ensures |r| <= |s|
  {
    if s != "" && IsSpace(s[0]) then SkipSpaces(s[1..]) else s
  }

  /** A keyword runs to '=' or a space. */
  function ScanKeyword(s: string): (r: Scan)
    ensures |r.rest| <= |s|
  {
    if s == "" || s[0] == '=' || IsSpace(s[0]) then Scan("", s)
    else
      var r := ScanKeyword(s[1..]);
      Scan([s[0]] + r.text, r.rest)
  }

  /** After the opening quote: backslash makes the next character literal; None if never closed. */
  function ScanQuoted(s: string): (r: Option<Scan>)
    ensures r.Some? ==> |r.value.rest| < |s|
  {
    if s == "" then None
    else if s[0] == '\'' then Some(Scan("", s[1..]))
    else if s[0] == '\\' && |s| == 1 then None
    else
      var k := if s[0] == '\\' then 1 else 0;
      var r := ScanQuoted(s[k + 1..]);
      if r.None? then None else Some(Scan([s[k]] + r.value.text, r.value.rest))
  }

  /** An unquoted value runs to a space, with the same escapes. */
  function ScanBare(s: string): (r: Scan)
    ensures |r.rest| <= |s|
  {
    if s == "" || IsSpace(s[0]) then Scan("", s)
    else if s[0] == '\\' && |s| == 1 then Scan("", "")
    else
      var k := if s[0] == '\\' then 1 else 0;
      var r := ScanBare(s[k + 1..]);
      Scan([s[k]] + r.text, r.rest)
  }

  function ScanValue(s: string): (r: Option<Scan>)
    ensures r.Some? ==> |r.value.rest| <= |s|
  {
    if s != "" && s[0] == '\'' then ScanQuoted(s[1..]) else Some(ScanBare(s))
  }

  function ParseConninfo(s: string): Option<seq<(string, string)>>
    decreases |s|
  {
    var start := SkipSpaces(s);
    if start == "" then Some([])
    else
      var key := ScanKeyword(start);
      var eq := SkipSpaces(key.rest);
      if eq == "" || eq[0] != '=' then None
      else
        var value := ScanValue(SkipSpaces(eq[1..]));
        if value.None? then None
        else
          var rest := ParseConninfo(value.value.rest);
          if rest.None? then None else Some([(key.text, value.value.text)] + rest.value)
  }

  // ---- reader of the SQL tokens used here (standard-conforming strings) ----

  datatype SqlToken = Word(word: string) | Identifier(name: string) | Literal(value: string) | Semicolon

  predicate IsWordChar(c: char) { 'A' <= c <= 'Z' || 'a' <= c <= 'z' || c == '_' }

  function ScanWord(s: string): (r: Scan)
    ensures |r.rest| <= |s| && (s != "" && IsWordChar(s[0]) ==> |r.rest| < |s|)
  {
    if s == "" || !IsWordChar(s[0]) then Scan("", s)
    else
      var r := ScanWord(s[1..]);
      Scan([s[0]] + r.text, r.rest)
  }

  /** Up to the closing delimiter; a doubled delimiter stands for itself. */
  function ScanDelimited(s: string, delimiter: char): (r: Option<Scan>)
    ensures r.Some? ==> |r.value.rest| < |s|
  {
    if s == "" then None
    else if s[0] == delimiter && (|s| == 1 || s[1] != delimiter) then Some(Scan("", s[1..]))
    else
      var k := if s[0] == delimiter then 1 else 0;
      var r := ScanDelimited(s[k + 1..], delimiter);
      if r.None? then None else Some(Scan([s[0]] + r.value.text, r.value.rest))
  }

  /** None: unterminated, or a form this reader does not know (comments, prefixed or continued literals, ...). */
  function ReadSql(s: string): Option<seq<SqlToken>>
    decreases |s|
  {
    if s == "" then Some([])
    else if s[0] == ' ' then ReadSql(s[1..])
    else if s[0] == ';' then Cons(Semicolon, ReadSql(s[1..]))
    else if s[0] == '"' then
      var r := ScanDelimited(s[1..], '"');
      if r.None? then None else Cons(Identifier(r.value.text), ReadSql(r.value.rest))
    else if s[0] == '\'' then
      var r := ScanDelimited(s[1..], '\'');
      if r.None? then None
      else
        var rest := ReadSql(r.value.rest);
        if rest.Some? && rest.value != [] && rest.value[0].Literal? then None else Cons(Literal(r.value.text), rest)
    else if IsWordChar(s[0]) then
      var r := ScanWord(s);
      if r.rest != "" && (r.rest[0] == '\'' || r.rest[0] == '"' || IsDigit(r.rest[0])) then None
      else Cons(Word(r.text), ReadSql(r.rest))
    else None
  }

  function Cons(t: SqlToken, rest: Option<seq<SqlToken>>): Option<seq<SqlToken>> {
    if rest.None? then None else Some([t] + rest.value)
  }

  // ---- libpq layer ----

  /** The two replacements together escape each character on its own. */
  lemma {:induction false} LibpqEscapes(v: string)
    ensures ReplaceChar(ReplaceChar(v, '\\', "\\\\"), '\'', "\\'") == EscapeEach(v)
  {
    if v != "" {
      LibpqEscapes(v[1..]);
      var inner := ReplaceChar(v[1..], '\\', "\\\\");
      if v[0] == '\\' {
        var two := "\\\\" + inner;
        assert two[1..] == "\\" + inner;
        assert ("\\" + inner)[1..] == inner;
        assert ReplaceChar("\\" + inner, '\'', "\\'") == "\\" + ReplaceChar(inner, '\'', "\\'");
        assert ReplaceChar(two, '\'', "\\'") == "\\" + ("\\" + ReplaceChar(inner, '\'', "\\'"));
      } else {
        assert ([v[0]] + inner)[1..] == inner;
      }
    }
  }

  function EscapeEach(v: string): string {
    if v == "" then ""
    else Escaped(v[0]) + EscapeEach(v[1..])
  }

  function Escaped(c: char): string {
    if c == '\\' || c == '\'' then ['\\', c] else [c]
  }

  lemma {:induction false} ScanOne(c: char, tail: string)
    requires ScanQuoted(tail).Some?
    ensures ScanQuoted(Escaped(c) + tail)
         == Some(Scan([c] + ScanQuoted(tail).value.text, ScanQuoted(tail).value.rest))
  {
    var s := Escaped(c) + tail;
    if |Escaped(c)| == 2 {
      assert s[0] == '\\' && s[1] == c && s[2..] == tail;
    } else {
      assert s[0] == c && s[1..] == tail;
    }
  }

  lemma {:induction false} ScanEscaped(v: string, rest: string)
    ensures ScanQuoted(EscapeEach(v) + ("'" + rest)) == Some(Scan(v, rest))
  {
    if v == "" {
      assert EscapeEach(v) + ("'" + rest) == "'" + rest;
      assert ("'" + rest)[1..] == rest;
    } else {
      var tail := EscapeEach(v[1..]) + ("'" + rest);
      ScanEscaped(v[1..], rest);
      ScanOne(v[0], tail);
      PlusAssociates(Escaped(v[0]), EscapeEach(v[1..]), "'" + rest);
      assert v == [v[0]] + v[1..];
    }
  }

  lemma {:induction false} ScanQuotedValue(value: string, rest: string)
    ensures ScanValue(LibpqQuote(value) + rest) == Some(Scan(value, rest))
  {
    var quoted := EscapeEach(value) + ("'" + rest);
    LibpqEscapes(value);
    ScanEscaped(value, rest);
    assert LibpqQuote(value) + rest == "'" + quoted;
    assert ("'" + quoted)[1..] == quoted;
  }

  predicate IsKey(k: string) {
    k != "" && forall i :: 0 <= i < |k| ==> IsWordChar(k[i])
  }

  lemma {:induction false} ScanKey(k: string, rest: string)
    requires forall i :: 0 <= i < |k| ==> IsWordChar(k[i])
    ensures ScanKeyword(k + ("=" + rest)) == Scan(k, "=" + rest)
  {
    if k == "" {
      assert k + ("=" + rest) == "=" + rest;
    } else {
      ScanKey(k[1..], rest);
      assert (k + ("=" + rest))[1..] == k[1..] + ("=" + rest);
      assert k == [k[0]] + k[1..];
    }
  }

  /** One pair read off the front. */
  lemma {:induction false} ParsePair(key: string, value: string, rest: string)
    requires IsKey(key)
    ensures ParseConninfo(key + ("=" + (LibpqQuote(value) + rest)))
         == if ParseConninfo(rest).None? then None else Some([(key, value)] + ParseConninfo(rest).value)
  {
    ScanQuotedValue(value, rest);
    ParseKeyThen(key, LibpqQuote(value) + rest);
  }

  lemma {:induction false} ParseKeyThen(key: string, text: string)
    requires IsKey(key) && text != "" && !IsSpace(text[0])
    ensures ParseConninfo(key + ("=" + text))
         == if ScanValue(text).None? then None
            else
              var v := ScanValue(text).value;
              if ParseConninfo(v.rest).None? then None else Some([(key, v.text)] + ParseConninfo(v.rest).value)
  {
    var s := key + ("=" + text);
    ScanKey(key, text);
    assert s[0] == key[0] && SkipSpaces(s) == s;
    assert ("=" + text)[1..] == text;
    assert SkipSpaces("=" + text) == "=" + text && SkipSpaces(text) == text;
  }

  lemma {:induction false} SkipOneSpace(s: string)
    requires s != "" && !IsSpace(s[0])
    ensures ParseConninfo(" " + s) == ParseConninfo(s)
  {
    assert (" " + s)[1..] == s;
    assert SkipSpaces(" " + s) == SkipSpaces(s) == s;
  }

  lemma {:induction false} ConnStringReadsBack(pairs: seq<(string, string)>)
    requires forall i :: 0 <= i < |pairs| ==> IsKey(pairs[i].0)
    ensures ParseConninfo(ConnString(pairs)) == Some(pairs)
  {
    if pairs != [] {
      ConnStringReadsBack(pairs[1..]);
      var rest := if |pairs| == 1 then "" else " " + ConnString(pairs[1..]);
      if |pairs| > 1 {
        ConnStringStart(pairs[1..]);
        SkipOneSpace(ConnString(pairs[1..]));
      }
      ParsePair(pairs[0].0, pairs[0].1, rest);
      ConnStringStep(pairs[0].0, LibpqQuote(pairs[0].1), if |pairs| == 1 then "" else ConnString(pairs[1..]));
      assert ParseConninfo(rest) == Some(pairs[1..]);
      assert [pairs[0]] + pairs[1..] == pairs;
    }
  }

  lemma {:induction false} ConnStringStart(pairs: seq<(string, string)>)
    requires pairs != [] && IsKey(pairs[0].0)
    ensures ConnString(pairs) != "" && !IsSpace(ConnString(pairs)[0])
  {
    assert ConnString(pairs)[0] == pairs[0].0[0];
  }

  lemma {:induction false} ConnStringStep(k: string, q: string, next: string)
    ensures k + "=" + q + " " + next == k + ("=" + (q + (" " + next)))
    ensures k + "=" + q == k + ("=" + (q + ""))
  {
  }

  // ---- SQL layer ----

  function Doubled(c: char, delimiter: char): string {
    if c == delimiter then [delimiter, delimiter] else [c]
  }

  lemma {:induction false} ScanOneDoubled(c: char, delimiter: char, tail: string)
    requires ScanDelimited(tail, delimiter).Some?
    ensures ScanDelimited(Doubled(c, delimiter) + tail, delimiter)
         == Some(Scan([c] + ScanDelimited(tail, delimiter).value.text, ScanDelimited(tail, delimiter).value.rest))
  {
    var s := Doubled(c, delimiter) + tail;
    if c == delimiter {
      assert s[0] == c && s[1] == c && s[2..] == tail;
    } else {
      assert s[0] == c && s[1..] == tail;
    }
  }

  lemma {:induction false} ScanDoubled(v: string, delimiter: char, rest: string)
    requires rest == "" || rest[0] != delimiter
    ensures ScanDelimited(ReplaceChar(v, delimiter, [delimiter, delimiter]) + ([delimiter] + rest), delimiter)
         == Some(Scan(v, rest))
  {
    var end := [delimiter] + rest;
    if v == "" {
      assert ReplaceChar(v, delimiter, [delimiter, delimiter]) + end == end;
      assert end[1..] == rest;
    } else {
      var tail := ReplaceChar(v[1..], delimiter, [delimiter, delimiter]) + end;
      ScanDoubled(v[1..], delimiter, rest);
      ScanOneDoubled(v[0], delimiter, tail);
      PlusAssociates(Doubled(v[0], delimiter), ReplaceChar(v[1..], delimiter, [delimiter, delimiter]), end);
      assert v == [v[0]] + v[1..];
    }
  }

  lemma {:induction false} NothingToDouble(v: string, c: char)
    requires c !in v
    ensures ReplaceChar(v, c, [c, c]) == v
  {
    if v != "" {
      NothingToDouble(v[1..], c);
    }
  }

  /** The suffix holds only lower-case letters, digits and underscores, so it never ends the identifier early. */
  lemma {:induction false} SuffixIsSafe(lowered: string)
    ensures forall c :: c in SafeSuffix(lowered) ==> 'a' <= c <= 'z' || '0' <= c <= '9' || c == '_'
  {
    if lowered != "" {
      SuffixIsSafe(lowered[1..]);
    }
  }

  lemma {:induction false} SafeIsKept(s: string, rest: string)
    requires forall c :: c in s ==> IsSafe(c)
    ensures SafeSuffix(s + rest) == s + SafeSuffix(rest)
  {
    if s == "" {
      assert s + rest == rest;
    } else {
      SafeIsKept(s[1..], rest);
      assert (s + rest)[1..] == s[1..] + rest;
    }
  }

  lemma {:induction false} RunIsOneUnderscore(run: string, rest: string)
    requires run != "" && (forall c :: c in run ==> !IsSafe(c)) && (rest == "" || IsSafe(rest[0]))
    ensures SafeSuffix(run + rest) == "_" + SafeSuffix(rest)
  {
    var s := run + rest;
    assert s[1..] == run[1..] + rest && s[0] == run[0];
    if |run| > 1 {
      assert s[1] == run[1];
      RunIsOneUnderscore(run[1..], rest);
    } else {
      assert s[1..] == rest;
    }
  }

  /** What the suffix is: safe characters stay, and each whole run of other characters becomes one underscore. So an id
      of safe characters and single underscores, as every id is, is its own suffix. */
  lemma {:induction false} SuffixIs(s: string, run: string, rest: string)
    requires forall c :: c in s ==> 'a' <= c <= 'z' || '0' <= c <= '9'
    requires forall c :: c in run ==> !('a' <= c <= 'z' || '0' <= c <= '9')
    requires rest == "" || (run != "" && ('a' <= rest[0] <= 'z' || '0' <= rest[0] <= '9'))
    ensures SafeSuffix(s + run + rest) == s + (if run == "" then "" else "_") + SafeSuffix(rest)
  {
    PlusAssociates(s, run, rest);
    SafeIsKept(s, run + rest);
    if run == "" {
      assert run + rest == "" && s + "" + "" == s;
    } else {
      RunIsOneUnderscore(run, rest);
      PlusAssociates(s, "_", SafeSuffix(rest));
    }
  }

  lemma {:induction false} ReadIdentifier(name: string, rest: string)
    requires '"' !in name && (rest == "" || rest[0] != '"')
    ensures ReadSql(['"'] + (name + (['"'] + rest))) == Cons(Identifier(name), ReadSql(rest))
  {
    NothingToDouble(name, '"');
    ScanDoubled(name, '"', rest);
    var inside := name + (['"'] + rest);
    assert (['"'] + inside)[1..] == inside;
  }

  lemma {:induction false} ReadLiteral(value: string, rest: string)
    requires rest != "" && rest[0] == ' '
    requires var r := ReadSql(rest); r.Some? ==> r.value == [] || !r.value[0].Literal?
    ensures ReadSql(['\''] + (ReplaceChar(value, '\'', "''") + (['\''] + rest))) == Cons(Literal(value), ReadSql(rest))
  {
    ScanDoubled(value, '\'', rest);
    var inside := ReplaceChar(value, '\'', "''") + (['\''] + rest);
    assert (['\''] + inside)[1..] == inside;
  }

  lemma {:induction false} ScanWholeWord(w: string, rest: string)
    requires forall i :: 0 <= i < |w| ==> IsWordChar(w[i])
    ensures ScanWord(w + (" " + rest)) == Scan(w, " " + rest)
  {
    if w == "" {
      assert w + (" " + rest) == " " + rest;
    } else {
      ScanWholeWord(w[1..], rest);
      assert (w + (" " + rest))[1..] == w[1..] + (" " + rest);
      assert w == [w[0]] + w[1..];
    }
  }

  lemma {:induction false} ReadWord(w: string, rest: string)
    requires IsKey(w)
    ensures ReadSql(w + (" " + rest)) == Cons(Word(w), ReadSql(rest))
  {
    ScanWholeWord(w, rest);
    ReadSpace(rest);
    assert (w + (" " + rest))[0] == w[0];
  }

  lemma {:induction false} ReadSpace(rest: string)
    ensures ReadSql(" " + rest) == ReadSql(rest)
  {
    assert (" " + rest)[1..] == rest;
  }

  /** PUBLICATION "name"; */
  lemma {:induction false} ReadTail(name: string)
    requires '"' !in name
    ensures ReadSql("PUBLICATION \"" + name + "\";") == Some([Word("PUBLICATION"), Identifier(name), Semicolon])
  {
    assert [';'][1..] == [];
    assert ReadSql([]) == Some([]);
    assert ReadSql([';']) == Some([Semicolon] + []);
    assert [Semicolon] + [] == [Semicolon];
    ReadIdentifier(name, [';']);
    ReadWord("PUBLICATION", ['"'] + (name + (['"'] + [';'])));
    TailText(name);
    TailTokens(Word("PUBLICATION"), Identifier(name), Semicolon);
  }

  lemma {:induction false} TailTokens(a: SqlToken, b: SqlToken, c: SqlToken)
    ensures [a] + ([b] + [c]) == [a, b, c]
  {
  }

  lemma {:induction false} TailText(name: string)
    ensures "PUBLICATION \"" + name + "\";" == "PUBLICATION" + (" " + (['"'] + (name + (['"'] + [';']))))
  {
    assert "PUBLICATION \"" == "PUBLICATION" + (" " + ['"']) && "\";" == ['"'] + [';'];
  }

  /** CONNECTION 'literal' and what follows, whatever the literal says. */
  lemma {:induction false} ReadConnection(conn: string, tail: string, tokens: seq<SqlToken>)
    requires ReadSql(tail) == Some(tokens) && tokens != [] && !tokens[0].Literal?
    ensures ReadSql("CONNECTION '" + ReplaceChar(conn, '\'', "''") + "' " + tail)
         == Some([Word("CONNECTION")] + ([Literal(conn)] + tokens))
  {
    var d := ReplaceChar(conn, '\'', "''");
    ReadSpace(tail);
    ReadLiteral(conn, " " + tail);
    ReadWord("CONNECTION", ['\''] + (d + (['\''] + (" " + tail))));
    ConnectionText(d, tail);
  }

  lemma {:induction false} ConnectionText(d: string, tail: string)
    ensures "CONNECTION '" + d + "' " + tail == "CONNECTION" + (" " + (['\''] + (d + (['\''] + (" " + tail)))))
  {
    assert "CONNECTION '" == "CONNECTION" + (" " + ['\'']) && "' " == ['\''] + " ";
  }

  lemma {:induction false} ReadHead(name: string, tail: string, tokens: seq<SqlToken>)
    requires '"' !in name && ReadSql(tail) == Some(tokens)
    ensures ReadSql("CREATE SUBSCRIPTION \"" + name + "\" " + tail)
         == Some([Word("CREATE")] + ([Word("SUBSCRIPTION")] + ([Identifier(name)] + tokens)))
  {
    ReadSpace(tail);
    ReadIdentifier(name, " " + tail);
    var afterName := ['"'] + (name + (['"'] + (" " + tail)));
    ReadWord("SUBSCRIPTION", afterName);
    ReadWord("CREATE", "SUBSCRIPTION" + (" " + afterName));
    HeadText(name, tail);
  }

  lemma {:induction false} HeadText(name: string, tail: string)
    ensures "CREATE SUBSCRIPTION \"" + name + "\" " + tail
         == "CREATE" + (" " + ("SUBSCRIPTION" + (" " + (['"'] + (name + (['"'] + (" " + tail)))))))
  {
    assert "CREATE SUBSCRIPTION \"" == "CREATE" + (" " + ("SUBSCRIPTION" + (" " + ['"']))) && "\" " == ['"'] + " ";
    HeadAssociates("CREATE", "SUBSCRIPTION", ['"'], name, tail);
  }

  lemma {:induction false} HeadAssociates(a: string, b: string, q: string, name: string, tail: string)
    ensures a + (" " + (b + (" " + q))) + name + (q + " ") + tail
         == a + (" " + (b + (" " + (q + (name + (q + (" " + tail)))))))
  {
  }

  lemma {:induction false} NamesAreSafe(lowered: string)
    ensures '"' !in PublicationName(lowered) && '"' !in SubscriptionName(lowered)
  {
    SuffixIsSafe(lowered);
    assert '"' !in "ss_pub_" && '"' !in "ss_sub_";
  }

  /** Both layers: the statement is exactly these tokens, its literal is the connection string, and
      libpq reads that string as exactly the target's fields, for every mix of quotes, backslashes,
      spaces and equals signs in them and for every replica id. */
  lemma {:induction false} SubscriptionReadsBack(lowered: string, t: ReplicaTarget)
    ensures ReadSql(CreateSubscriptionSql(lowered, t))
         == Some([Word("CREATE")] + ([Word("SUBSCRIPTION")] + ([Identifier(SubscriptionName(lowered))]
                 + ([Word("CONNECTION")] + ([Literal(ReplicationConnString(t))]
                    + [Word("PUBLICATION"), Identifier(PublicationName(lowered)), Semicolon])))))
    ensures SubscriptionName(lowered) == "ss_sub_" + SafeSuffix(lowered)
    ensures PublicationName(lowered) == "ss_pub_" + SafeSuffix(lowered)
    ensures ParseConninfo(ReplicationConnString(t))
         == Some([("host", t.host), ("port", Decimal(t.port)), ("user", t.user), ("password", t.password),
                  ("dbname", t.database)])
    ensures Numeral(Decimal(t.port)) == t.port
  {
    NamesAreSafe(lowered);
    var conn := ReplicationConnString(t);
    var tail := "PUBLICATION \"" + PublicationName(lowered) + "\";";
    ReadTail(PublicationName(lowered));
    var tailTokens := [Word("PUBLICATION"), Identifier(PublicationName(lowered)), Semicolon];
    ReadConnection(conn, tail, tailTokens);
    var connection := "CONNECTION '" + ReplaceChar(conn, '\'', "''") + "' " + tail;
    ReadHead(SubscriptionName(lowered), connection, [Word("CONNECTION")] + ([Literal(conn)] + tailTokens));
    FieldKeys(t);
    ConnStringReadsBack(Fields(t));
    NumeralOfDecimal(t.port);
  }

  lemma {:induction false} FieldKeys(t: ReplicaTarget)
    ensures forall i :: 0 <= i < |Fields(t)| ==> IsKey(Fields(t)[i].0)
  {
    assert IsKey("host") && IsKey("port") && IsKey("user") && IsKey("password") && IsKey("dbname");
  }
}
