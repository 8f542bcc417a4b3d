/** Shell command composition: deploy/exec.ts (shellQuote, composeRemoteCommand), deploy/hooks.ts and
    backups/commands.ts (shq), read back by a reader of the POSIX shell command language. */
module ShellCommand {
  import opened Text

  // ---- the printers ----

  /** Every quote becomes: close, escaped quote, reopen. */
  function Escape(value: string): string {
    if value == "" then ""
    else (if value[0] == '\'' then "'\\''" else [value[0]]) + Escape(value[1..])
  }

  /** shellQuote and shq, which print the same text. */
  function Quote(value: string): string {
    "'" + Escape(value) + "'"
  }

  function QuoteAll(words: seq<string>): string
    requires words != []
  {
    if |words| == 1 then Quote(words[0]) else Quote(words[0]) + " " + QuoteAll(words[1..])
  }

  /** An extra environment in entry order; an undefined value is None. */
  type Env = seq<(string, Option<string>)>

  function Defined(env: Env): seq<(string, string)> {
    if env == [] then []
    else if env[0].1.Some? then [(env[0].0, env[0].1.value)] + Defined(env[1..])
    else Defined(env[1..])
  }

  function EnvPrefix(pairs: seq<(string, string)>): string {
    if pairs == [] then ""
    else if |pairs| == 1 then pairs[0].0 + "=" + Quote(pairs[0].1)
    else pairs[0].0 + "=" + Quote(pairs[0].1) + " " + EnvPrefix(pairs[1..])
  }

  function ComposeRemoteCommand(cmd: string, args: seq<string>, cwd: string, env: Env): string {
    var envPrefix := EnvPrefix(Defined(env));
    var command := QuoteAll([cmd] + args);
    var withEnv := if envPrefix != "" then envPrefix + " " + command else command;
    if cwd != "" then "cd " + Quote(cwd) + " && " + withEnv else withEnv
  }

  function PreDeployCommand(tag: string, command: string): string {
    "docker run --rm " + Quote(tag) + " sh -c " + Quote(command)
  }

  function PostDeployCommand(container: string, command: string): string {
    "docker exec " + Quote(container) + " sh -c " + Quote(command)
  }

  // ---- the reader: sections 2.2.1, 2.2.2, 2.3, 2.9.1 and 2.9.3 of the POSIX Shell Command Language ----

  /** A character of a word, and whether it was quoted. */
  datatype Mark = Mark(c: char, quoted: bool)

  datatype Token = Word(marks: seq<Mark>) | AndIf

  datatype SimpleCommand = SimpleCommand(assignments: seq<(string, string)>, argv: seq<string>)

  predicate IsNameStart(c: char) { 'a' <= c <= 'z' || 'A' <= c <= 'Z' || c == '_' }

  predicate IsNameChar(c: char) { IsNameStart(c) || IsDigit(c) }

  predicate IsName(s: string) {
    s != "" && IsNameStart(s[0]) && forall i :: 0 <= i < |s| ==> IsNameChar(s[i])
  }

  /** Characters that stand for themselves wherever they are unquoted. */
  predicate IsPlain(c: char) {
    IsNameChar(c) || c == '-' || c == '.' || c == '/' || c == ':' || c == ',' || c == '+' || c == '@' || c == '='
  }

  function Finish(word: Option<seq<Mark>>): seq<Token> {
    match word
    case None => []
    case Some(marks) => [Word(marks)]
  }

  function Prepend(tokens: seq<Token>, rest: Option<seq<Token>>): Option<seq<Token>> {
    if rest.None? then None else Some(tokens + rest.value)
  }

  /** Token recognition outside quotes; `word` is the word being read, if any. None: the text is
      incomplete or uses something this reader does not know (expansions, redirections, comments, ...). */
  function Lex(s: string, word: Option<seq<Mark>>): Option<seq<Token>>
    decreases |s|
  {
    if s == "" then Some(Finish(word))
    else if s[0] == ' ' || s[0] == '\t' then Prepend(Finish(word), Lex(s[1..], None))
    else if s[0] == '\'' then LexQuoted(s[1..], word.GetOr([]))
    else if s[0] == '\\' then
      if |s| == 1 then None
      else if s[1] == '\n' then Lex(s[2..], word)
      else Lex(s[2..], Some(word.GetOr([]) + [Mark(s[1], true)]))
    else if s[0] == '&' then
      if |s| >= 2 && s[1] == '&' then Prepend(Finish(word) + [AndIf], Lex(s[2..], None)) else None
    else if IsPlain(s[0]) then Lex(s[1..], Some(word.GetOr([]) + [Mark(s[0], false)]))
    else None
  }

  /** Between single quotes every character is literal up to the next single quote. */
  function LexQuoted(s: string, word: seq<Mark>): Option<seq<Token>>
    decreases |s|
  {
    if s == "" then None
    else if s[0] == '\'' then Lex(s[1..], Some(word))
    else LexQuoted(s[1..], word + [Mark(s[0], true)])
  }

  /** Quote removal. */
  function Letters(marks: seq<Mark>): string {
    if marks == [] then "" else [marks[0].c] + Letters(marks[1..])
  }

  function UnquotedEquals(marks: seq<Mark>): (i: nat)
    ensures i <= |marks|
    ensures i < |marks| ==> marks[i] == Mark('=', false)
    ensures forall k :: 0 <= k < i ==> marks[k] != Mark('=', false)
  {
    if marks == [] || marks[0] == Mark('=', false) then 0 else 1 + UnquotedEquals(marks[1..])
  }

  /** An assignment word: an unquoted name, an unquoted '=', and anything. */
  predicate IsAssignment(marks: seq<Mark>) {
    var i := UnquotedEquals(marks);
    && i < |marks|
    && IsName(Letters(marks[..i]))
    && forall k :: 0 <= k < i ==> !marks[k].quoted
  }

  function Argv(tokens: seq<Token>): Option<seq<string>> {
    if tokens == [] then Some([])
    else if tokens[0].AndIf? then None
    else
      var rest := Argv(tokens[1..]);
      if rest.None? then None else Some([Letters(tokens[0].marks)] + rest.value)
  }

  /** Leading assignment words are assignments; the other words are the command and its arguments. */
  function ReadSimple(tokens: seq<Token>): Option<SimpleCommand> {
    if tokens == [] then None
    else if tokens[0].Word? && IsAssignment(tokens[0].marks) then
      var marks, i := tokens[0].marks, UnquotedEquals(tokens[0].marks);
      var a := (Letters(marks[..i]), Letters(marks[i + 1..]));
      if |tokens| == 1 then Some(SimpleCommand([a], []))
      else
        var rest := ReadSimple(tokens[1..]);
        if rest.None? then None else Some(rest.value.(assignments := [a] + rest.value.assignments))
    else
      var argv := Argv(tokens);
      if argv.None? then None else Some(SimpleCommand([], argv.value))
  }

  function FirstAnd(tokens: seq<Token>): (i: nat)
    ensures i <= |tokens| && (i < |tokens| ==> tokens[i] == AndIf)
  {
    if tokens == [] || tokens[0].AndIf? then 0 else 1 + FirstAnd(tokens[1..])
  }

  /** An AND list of simple commands. */
  function ReadList(tokens: seq<Token>): Option<seq<SimpleCommand>> {
    var i := FirstAnd(tokens);
    var first := ReadSimple(tokens[..i]);
    if first.None? then None
    else if i == |tokens| then Some([first.value])
    else
      var rest := ReadList(tokens[i + 1..]);
      if rest.None? then None else Some([first.value] + rest.value)
  }

  /** What a shell makes of a command line. */
  function ReadCommandLine(s: string): Option<seq<SimpleCommand>> {
    var tokens := Lex(s, None);
    if tokens.None? then None else ReadList(tokens.value)
  }

  lemma {:induction false} PrependTwice(a: seq<Token>, b: seq<Token>, rest: Option<seq<Token>>)
    ensures Prepend(a, Prepend(b, rest)) == Prepend(a + b, rest)
    ensures Prepend([], rest) == rest
  {
    if rest.Some? {
      assert a + (b + rest.value) == a + b + rest.value;
      assert [] + rest.value == rest.value;
    }
  }

  // ---- lexing what was printed ----

  function Marks(s: string, quoted: bool): seq<Mark> {
    if s == "" then [] else [Mark(s[0], quoted)] + Marks(s[1..], quoted)
  }

  lemma {:induction false} LettersOfMarks(s: string, quoted: bool)
    ensures Letters(Marks(s, quoted)) == s && |Marks(s, quoted)| == |s|
    ensures forall i :: 0 <= i < |s| ==> Marks(s, quoted)[i] == Mark(s[i], quoted)
  {
    if s != "" {
      LettersOfMarks(s[1..], quoted);
    }
  }

  lemma {:induction false} LexOpenQuote(rest: string, word: Option<seq<Mark>>)
    ensures Lex(['\''] + rest, word) == LexQuoted(rest, word.GetOr([]))
  {
    assert (['\''] + rest)[1..] == rest;
  }

  lemma {:induction false} LexCloseQuote(rest: string, word: seq<Mark>)
    ensures LexQuoted(['\''] + rest, word) == Lex(rest, Some(word))
  {
    assert (['\''] + rest)[1..] == rest;
  }

  lemma {:induction false} LexBackslash(c: char, rest: string, word: Option<seq<Mark>>)
    requires c != '\n'
    ensures Lex(['\\'] + ([c] + rest), word) == Lex(rest, Some(word.GetOr([]) + [Mark(c, true)]))
  {
    assert (['\\'] + ([c] + rest))[2..] == rest;
  }

  lemma {:induction false} LexEscaped(value: string, rest: string, word: seq<Mark>)
    ensures LexQuoted(Escape(value) + ("'" + rest), word) == Lex(rest, Some(word + Marks(value, true)))
  {
    if value == "" {
      assert Escape(value) + ("'" + rest) == ['\''] + rest;
      LexCloseQuote(rest, word);
      assert word + Marks(value, true) == word;
    } else {
      var tail := Escape(value[1..]) + ("'" + rest);
      var next := word + [Mark(value[0], true)];
      LexEscaped(value[1..], rest, next);
      assert word + Marks(value, true) == next + Marks(value[1..], true);
      LexEscapedChar(value[0], tail, word);
      var head := if value[0] == '\'' then "'\\''" else [value[0]];
      assert Escape(value) + ("'" + rest) == head + tail;
    }
  }

  lemma {:induction false} LexEscapedChar(c: char, tail: string, word: seq<Mark>)
    ensures LexQuoted((if c == '\'' then "'\\''" else [c]) + tail, word)
         == LexQuoted(tail, word + [Mark(c, true)])
  {
    if c == '\'' {
      assert "'\\''" + tail == ['\''] + (['\\'] + (['\''] + (['\''] + tail)));
      LexCloseQuote(['\\'] + (['\''] + (['\''] + tail)), word);
      LexBackslash('\'', ['\''] + tail, Some(word));
      LexOpenQuote(tail, Some(word + [Mark(c, true)]));
    } else {
      assert ([c] + tail)[1..] == tail;
    }
  }

  lemma {:induction false} LexQuote(value: string, rest: string, word: Option<seq<Mark>>)
    ensures Lex(Quote(value) + rest, word) == Lex(rest, Some(word.GetOr([]) + Marks(value, true)))
  {
    var tail := Escape(value) + ("'" + rest);
    LexEscaped(value, rest, word.GetOr([]));
    LexOpenQuote(tail, word);
    assert Quote(value) + rest == ['\''] + tail;
  }

  lemma {:induction false} LexPlain(s: string, rest: string, word: Option<seq<Mark>>)
    requires s != "" && forall i :: 0 <= i < |s| ==> IsPlain(s[i])
    ensures Lex(s + rest, word) == Lex(rest, Some(word.GetOr([]) + Marks(s, false)))
  {
    var next := word.GetOr([]) + [Mark(s[0], false)];
    assert s + rest == [s[0]] + (s[1..] + rest);
    if |s| == 1 {
      assert s[1..] + rest == rest;
      assert word.GetOr([]) + Marks(s, false) == next;
    } else {
      LexPlain(s[1..], rest, Some(next));
      assert next + Marks(s[1..], false) == word.GetOr([]) + Marks(s, false);
    }
  }

  lemma {:induction false} LexSpace(rest: string, word: Option<seq<Mark>>)
    ensures Lex(" " + rest, word) == Prepend(Finish(word), Lex(rest, None))
  {
    assert (" " + rest)[1..] == rest;
  }

  /** The tokens of quoted words. */
  function Words(words: seq<string>): seq<Token> {
    if words == [] then [] else [Word(Marks(words[0], true))] + Words(words[1..])
  }

  lemma {:induction false} LexQuotedWord(w: string, rest: string)
    ensures Lex(Quote(w) + (" " + rest), None) == Prepend([Word(Marks(w, true))], Lex(rest, None))
  {
    LexQuote(w, " " + rest, None);
    assert [] + Marks(w, true) == Marks(w, true);
    LexSpace(rest, Some(Marks(w, true)));
  }

  lemma {:induction false} LexLastQuotedWord(w: string)
    ensures Lex(Quote(w), None) == Some([Word(Marks(w, true))])
  {
    LexQuote(w, "", None);
    assert Quote(w) + "" == Quote(w) && [] + Marks(w, true) == Marks(w, true);
  }

  lemma {:induction false} LexPlainWord(w: string, rest: string)
    requires w != "" && forall i :: 0 <= i < |w| ==> IsPlain(w[i])
    ensures Lex(w + (" " + rest), None) == Prepend([Word(Marks(w, false))], Lex(rest, None))
  {
    LexPlain(w, " " + rest, None);
    assert [] + Marks(w, false) == Marks(w, false);
    LexSpace(rest, Some(Marks(w, false)));
  }

  lemma {:induction false} LexQuoteAll(words: seq<string>)
    requires words != []
    ensures Lex(QuoteAll(words), None) == Some(Words(words))
  {
    if |words| == 1 {
      LexLastQuotedWord(words[0]);
      assert Words(words) == [Word(Marks(words[0], true))];
    } else {
      var rest := QuoteAll(words[1..]);
      LexQuotedWord(words[0], rest);
      LexQuoteAll(words[1..]);
      assert QuoteAll(words) == Quote(words[0]) + (" " + rest);
    }
  }

  function AssignmentMarks(pair: (string, string)): seq<Mark> {
    Marks(pair.0, false) + [Mark('=', false)] + Marks(pair.1, true)
  }

  function AssignmentWords(pairs: seq<(string, string)>): seq<Token> {
    if pairs == [] then [] else [Word(AssignmentMarks(pairs[0]))] + AssignmentWords(pairs[1..])
  }

  lemma {:induction false} LexAssignment(pair: (string, string), rest: string)
    requires IsName(pair.0)
    ensures Lex(pair.0 + ("=" + (Quote(pair.1) + rest)), None) == Lex(rest, Some(AssignmentMarks(pair)))
  {
    var tail := Quote(pair.1) + rest;
    LexPlain(pair.0, "=" + tail, None);
    assert [] + Marks(pair.0, false) == Marks(pair.0, false);
    LexPlain("=", tail, Some(Marks(pair.0, false)));
    assert Marks("=", false) == [Mark('=', false)];
    LexQuote(pair.1, rest, Some(Marks(pair.0, false) + [Mark('=', false)]));
  }

  ghost predicate NamesOk(pairs: seq<(string, string)>) {
    forall i :: 0 <= i < |pairs| ==> IsName(pairs[i].0)
  }

  lemma {:induction false} LexAssignmentWord(pair: (string, string), rest: string)
    requires IsName(pair.0)
    ensures Lex(pair.0 + "=" + Quote(pair.1) + (" " + rest), None)
         == Prepend([Word(AssignmentMarks(pair))], Lex(rest, None))
  {
    LexAssignment(pair, " " + rest);
    LexSpace(rest, Some(AssignmentMarks(pair)));
    assert pair.0 + "=" + Quote(pair.1) + (" " + rest) == pair.0 + ("=" + (Quote(pair.1) + (" " + rest)));
  }

  lemma {:induction false} LexEnv(pairs: seq<(string, string)>, rest: string)
    requires pairs != [] && NamesOk(pairs)
    ensures Lex(EnvPrefix(pairs) + (" " + rest), None) == Prepend(AssignmentWords(pairs), Lex(rest, None))
  {
    LexEnvStep(pairs, rest);
    if |pairs| > 1 {
      LexEnv(pairs[1..], rest);
      PrependTwice([Word(AssignmentMarks(pairs[0]))], AssignmentWords(pairs[1..]), Lex(rest, None));
    } else {
      assert AssignmentWords(pairs) == [Word(AssignmentMarks(pairs[0]))];
    }
  }

  lemma {:induction false} LexEnvStep(pairs: seq<(string, string)>, rest: string)
    requires pairs != [] && NamesOk(pairs)
    ensures Lex(EnvPrefix(pairs) + (" " + rest), None)
         == Prepend([Word(AssignmentMarks(pairs[0]))],
                    Lex(if |pairs| == 1 then rest else EnvPrefix(pairs[1..]) + (" " + rest), None))
  {
    var tail := if |pairs| == 1 then rest else EnvPrefix(pairs[1..]) + (" " + rest);
    LexAssignmentWord(pairs[0], tail);
    if |pairs| > 1 {
      EnvPrefixStep(pairs, rest);
    }
  }

  lemma {:induction false} EnvPrefixStep(pairs: seq<(string, string)>, rest: string)
    requires |pairs| > 1
    ensures EnvPrefix(pairs) + (" " + rest)
         == pairs[0].0 + "=" + Quote(pairs[0].1) + (" " + (EnvPrefix(pairs[1..]) + (" " + rest)))
  {
    SpacesAssociate(pairs[0].0 + "=" + Quote(pairs[0].1), EnvPrefix(pairs[1..]), rest);
  }

  lemma {:induction false} SpacesAssociate(a: string, b: string, c: string)
    ensures a + " " + b + (" " + c) == a + (" " + (b + (" " + c)))
  {
  }

  // ---- parsing the tokens ----

  lemma {:induction false} ArgvOfWords(words: seq<string>)
    ensures Argv(Words(words)) == Some(words)
  {
    if words != [] {
      ArgvOfWords(words[1..]);
      LettersOfMarks(words[0], true);
      assert Words(words)[1..] == Words(words[1..]);
      assert [words[0]] + words[1..] == words;
    }
  }

  lemma {:induction false} QuotedWordIsNoAssignment(w: string)
    ensures !IsAssignment(Marks(w, true))
  {
    LettersOfMarks(w, true);
  }

  lemma {:induction false} AssignmentWordReads(pair: (string, string))
    requires IsName(pair.0)
    ensures IsAssignment(AssignmentMarks(pair))
    ensures var m, i := AssignmentMarks(pair), UnquotedEquals(AssignmentMarks(pair));
            Letters(m[..i]) == pair.0 && Letters(m[i + 1..]) == pair.1
  {
    var m := AssignmentMarks(pair);
    LettersOfMarks(pair.0, false);
    LettersOfMarks(pair.1, true);
    var i := UnquotedEquals(m);
    assert m[|pair.0|] == Mark('=', false);
    assert forall k :: 0 <= k < |pair.0| ==> m[k] == Mark(pair.0[k], false) && IsNameChar(pair.0[k]);
    assert i == |pair.0|;
    assert m[..i] == Marks(pair.0, false) && m[i + 1..] == Marks(pair.1, true);
  }

  lemma {:induction false} ReadQuotedWords(words: seq<string>)
    requires words != []
    ensures ReadSimple(Words(words)) == Some(SimpleCommand([], words))
  {
    QuotedWordIsNoAssignment(words[0]);
    ArgvOfWords(words);
  }

  lemma {:induction false} ReadAssignment(pair: (string, string), rest: seq<Token>)
    requires IsName(pair.0) && rest != []
    ensures ReadSimple([Word(AssignmentMarks(pair))] + rest)
         == if ReadSimple(rest).None? then None
            else Some(ReadSimple(rest).value.(assignments := [pair] + ReadSimple(rest).value.assignments))
  {
    AssignmentWordReads(pair);
    assert ([Word(AssignmentMarks(pair))] + rest)[1..] == rest;
  }

  lemma {:induction false} ReadPrinted(pairs: seq<(string, string)>, words: seq<string>)
    requires words != [] && NamesOk(pairs)
    ensures ReadSimple(AssignmentWords(pairs) + Words(words)) == Some(SimpleCommand(pairs, words))
  {
    if pairs == [] {
      assert AssignmentWords(pairs) + Words(words) == Words(words);
      ReadQuotedWords(words);
    } else {
      var rest := AssignmentWords(pairs[1..]) + Words(words);
      ReadPrinted(pairs[1..], words);
      ReadAssignment(pairs[0], rest);
      PlusAssociates([Word(AssignmentMarks(pairs[0]))], AssignmentWords(pairs[1..]), Words(words));
      assert [pairs[0]] + pairs[1..] == pairs;
    }
  }

  lemma {:induction false} NoAndInWords(pairs: seq<(string, string)>, words: seq<string>)
    ensures FirstAnd(AssignmentWords(pairs) + Words(words)) == |AssignmentWords(pairs) + Words(words)|
    decreases |pairs|, |words|
  {
    var tokens := AssignmentWords(pairs) + Words(words);
    if pairs != [] {
      NoAndInWords(pairs[1..], words);
      assert tokens[1..] == AssignmentWords(pairs[1..]) + Words(words);
    } else if words != [] {
      NoAndInWords(pairs, words[1..]);
      assert tokens[1..] == AssignmentWords(pairs) + Words(words[1..]);
    }
  }

  /** What a composed command must mean: an optional cd, then the command in its environment. */
  function Meaning(cmd: string, args: seq<string>, cwd: string, env: Env): seq<SimpleCommand> {
    (if cwd != "" then [SimpleCommand([], ["cd", cwd])] else [])
    + [SimpleCommand(Defined(env), [cmd] + args)]
  }

  /** The part after the cd. */
  function WithEnv(pairs: seq<(string, string)>, words: seq<string>): string
    requires words != []
  {
    if EnvPrefix(pairs) != "" then EnvPrefix(pairs) + " " + QuoteAll(words) else QuoteAll(words)
  }

  lemma {:induction false} LexWithEnv(pairs: seq<(string, string)>, words: seq<string>)
    requires words != [] && NamesOk(pairs)
    ensures Lex(WithEnv(pairs, words), None) == Some(AssignmentWords(pairs) + Words(words))
  {
    LexQuoteAll(words);
    if pairs == [] {
      assert AssignmentWords(pairs) + Words(words) == Words(words);
    } else {
      LexEnv(pairs, QuoteAll(words));
      assert EnvPrefix(pairs) + " " + QuoteAll(words) == EnvPrefix(pairs) + (" " + QuoteAll(words));
    }
  }

  lemma {:induction false} LexAnd(rest: string)
    ensures Lex("&& " + rest, None) == Prepend([AndIf], Lex(rest, None))
  {
    assert ("&& " + rest)[2..] == " " + rest;
    LexSpace(rest, None);
    PrependTwice([], [], Lex(rest, None));
    assert [] + [AndIf] == [AndIf];
  }

  function CdTokens(cwd: string): seq<Token> {
    [Word(Marks("cd", false)), Word(Marks(cwd, true))]
  }

  lemma {:induction false} LexCd(cwd: string, rest: string)
    ensures Lex("cd " + Quote(cwd) + " && " + rest, None) == Prepend(CdTokens(cwd) + [AndIf], Lex(rest, None))
  {
    var afterCwd := "&& " + rest;
    var afterCd := Quote(cwd) + (" " + afterCwd);
    LexPlainWord("cd", afterCd);
    LexQuotedWord(cwd, afterCwd);
    LexAnd(rest);
    PrependTwice([Word(Marks(cwd, true))], [AndIf], Lex(rest, None));
    PrependTwice([Word(Marks("cd", false))], [Word(Marks(cwd, true))] + [AndIf], Lex(rest, None));
    assert [Word(Marks("cd", false))] + ([Word(Marks(cwd, true))] + [AndIf]) == CdTokens(cwd) + [AndIf];
    CdLine(Quote(cwd), rest);
  }

  lemma {:induction false} CdLine(q: string, rest: string)
    ensures "cd " + q + " && " + rest == "cd" + (" " + (q + (" " + ("&& " + rest))))
  {
    assert "cd " == "cd" + " " && " && " == " " + "&& ";
    assert "cd" + " " + q + (" " + "&& ") + rest == "cd" + (" " + (q + (" " + ("&& " + rest))));
  }

  lemma {:induction false} ArgvOfOne(marks: seq<Mark>)
    ensures Argv([Word(marks)]) == Some([Letters(marks)])
  {
    assert [Word(marks)][1..] == [];
    assert [Letters(marks)] + [] == [Letters(marks)];
  }

  lemma {:induction false} ReadCd(cwd: string)
    ensures ReadSimple(CdTokens(cwd)) == Some(SimpleCommand([], ["cd", cwd]))
  {
    LettersOfMarks("cd", false);
    LettersOfMarks(cwd, true);
    var tokens := CdTokens(cwd);
    assert !IsAssignment(tokens[0].marks);
    ArgvOfOne(Marks(cwd, true));
    assert tokens[1..] == [Word(Marks(cwd, true))];
    assert Argv(tokens) == Some(["cd"] + [cwd]);
    assert ["cd"] + [cwd] == ["cd", cwd];
  }

  /** An AND list whose first command has no AND of its own. */
  lemma {:induction false} ReadAndList(first: seq<Token>, rest: seq<Token>)
    requires FirstAnd(first) == |first|
    ensures ReadList(first) == if ReadSimple(first).None? then None else Some([ReadSimple(first).value])
    ensures ReadList(first + [AndIf] + rest)
         == if ReadSimple(first).None? || ReadList(rest).None? then None
            else Some([ReadSimple(first).value] + ReadList(rest).value)
  {
    var all := first + [AndIf] + rest;
    assert first[..|first|] == first;
    FirstAndAfter(first, rest);
    assert all[..|first|] == first && all[|first| + 1..] == rest;
  }

  lemma {:induction false} FirstAndAfter(first: seq<Token>, rest: seq<Token>)
    requires FirstAnd(first) == |first|
    ensures FirstAnd(first + [AndIf] + rest) == |first|
  {
    if first == [] {
      assert (first + [AndIf] + rest)[0] == AndIf;
    } else {
      FirstAndAfter(first[1..], rest);
      assert (first + [AndIf] + rest)[1..] == first[1..] + [AndIf] + rest;
    }
  }

  lemma {:induction false} CdReads(cwd: string, rest: string, tokens: seq<Token>)
    requires Lex(rest, None) == Some(tokens) && ReadList(tokens).Some?
    ensures ReadCommandLine("cd " + Quote(cwd) + " && " + rest)
         == Some([SimpleCommand([], ["cd", cwd])] + ReadList(tokens).value)
  {
    LexCd(cwd, rest);
    ReadCd(cwd);
    assert FirstAnd(CdTokens(cwd)) == 2 by { assert CdTokens(cwd)[1..][1..] == []; }
    ReadAndList(CdTokens(cwd), tokens);
  }

  /** Reading a composed command line gives back the directory, the defined environment, the
      command and its arguments exactly, whatever characters they hold, when every environment key
      is a shell name. */
  lemma {:induction false} ComposedCommandReadsBack(cmd: string, args: seq<string>, cwd: string, env: Env)
    requires forall i :: 0 <= i < |env| && env[i].1.Some? ==> IsName(env[i].0)
    ensures exists pairs ::
      && |pairs| == |set j: nat | j < |env| && env[j].1.Some?|
      && (forall i :: 0 <= i < |env| && env[i].1.Some? ==> ValuedAt(env, pairs, i))
      && ReadCommandLine(ComposeRemoteCommand(cmd, args, cwd, env))
         == Some((if cwd != "" then [SimpleCommand([], ["cd", cwd])] else []) + [SimpleCommand(pairs, [cmd] + args)])
  {
    DefinedNames(env);
    DefinedIsThePart(env);
    MeaningReadsBack(cmd, args, cwd, env);
    assert IsDefinedPart(env, Defined(env));
    assert ValuedBefore(env, |env|) == set j: nat | j < |env| && env[j].1.Some?;
  }

  /** pairs are the entries of env that have a value, in order: each of them sits where the number of such entries
      before it says. */
  ghost predicate IsDefinedPart(env: Env, pairs: seq<(string, string)>) {
    && |pairs| == |ValuedBefore(env, |env|)|
    && forall i :: 0 <= i < |env| && env[i].1.Some? ==> ValuedAt(env, pairs, i)
  }

  /** The entries before n that have a value. */
  function ValuedBefore(env: Env, n: nat): set<nat>
    requires n <= |env|
  {
    set j: nat | j < n && env[j].1.Some?
  }

  ghost predicate ValuedAt(env: Env, pairs: seq<(string, string)>, i: nat)
    requires i < |env| && env[i].1.Some?
  {
    var k := |ValuedBefore(env, i)|;
    k < |pairs| && pairs[k].0 == env[i].0 && pairs[k].1 == env[i].1.value
  }

  lemma {:induction false} DefinedSnoc(env: Env)
    requires env != []
    ensures var n := |env| - 1;
      Defined(env) == Defined(env[..n]) + if env[n].1.Some? then [(env[n].0, env[n].1.value)] else []
  {
    var n := |env| - 1;
    if n > 0 {
      DefinedSnoc(env[1..]);
      assert env[1..][..n - 1] == env[..n][1..];
    }
  }

  lemma {:induction false} ValuedSnoc(env: Env)
    requires env != []
    ensures var n := |env| - 1;
      |ValuedBefore(env, |env|)| == |ValuedBefore(env[..n], n)| + if env[n].1.Some? then 1 else 0
  {
    var n := |env| - 1;
    assert ValuedBefore(env, |env|) == ValuedBefore(env[..n], n) + if env[n].1.Some? then {n} else {};
  }

  lemma {:induction false} DefinedIsThePart(env: Env)
    ensures IsDefinedPart(env, Defined(env))
  {
    if env == [] {
      assert ValuedBefore(env, 0) == {};
    } else {
      var n := |env| - 1;
      var front := env[..n];
      DefinedIsThePart(front);
      DefinedSnoc(env);
      ValuedSnoc(env);
      forall i | 0 <= i < |env| && env[i].1.Some? ensures ValuedAt(env, Defined(env), i) {
        assert ValuedBefore(env, i) == ValuedBefore(front, i);
        assert i < n ==> ValuedAt(front, Defined(front), i);
        assert ValuedBefore(front, n) == ValuedBefore(front, |front|);
      }
    }
  }

  lemma {:induction false} DefinedNames(env: Env)
    ensures NamesOk(Defined(env)) <==> forall i :: 0 <= i < |env| && env[i].1.Some? ==> IsName(env[i].0)
  {
    if env != [] {
      hide IsName, NamesOk;
      DefinedNames(env[1..]);
      DefinedNamesStep(env);
      assert forall i :: 0 <= i < |env| - 1 ==> env[1..][i] == env[i + 1];
      assert forall i :: 1 <= i < |env| ==> env[i] == env[1..][i - 1];
    }
  }

  lemma {:induction false} DefinedNamesStep(env: Env)
    requires env != []
    ensures NamesOk(Defined(env)) <==> NamesOk(Defined(env[1..])) && (env[0].1.Some? ==> IsName(env[0].0))
  {
    hide IsName;
    var rest := Defined(env[1..]);
    if env[0].1.Some? {
      var all := Defined(env);
      assert all == [(env[0].0, env[0].1.value)] + rest;
      assert forall i :: 0 <= i < |rest| ==> all[i + 1] == rest[i];
      assert forall i :: 1 <= i < |all| ==> all[i] == rest[i - 1];
    }
  }

  lemma {:induction false} MeaningReadsBack(cmd: string, args: seq<string>, cwd: string, env: Env)
    requires NamesOk(Defined(env))
    ensures ReadCommandLine(ComposeRemoteCommand(cmd, args, cwd, env)) == Some(Meaning(cmd, args, cwd, env))
  {
    var pairs, words := Defined(env), [cmd] + args;
    var tokens := AssignmentWords(pairs) + Words(words);
    LexWithEnv(pairs, words);
    ReadPrinted(pairs, words);
    NoAndInWords(pairs, words);
    ReadAndList(tokens, []);
    var main := SimpleCommand(pairs, words);
    assert ReadList(tokens) == Some([main]);
    if cwd != "" {
      CdReads(cwd, WithEnv(pairs, words), tokens);
      assert ComposeRemoteCommand(cmd, args, cwd, env) == "cd " + Quote(cwd) + " && " + WithEnv(pairs, words);
    } else {
      assert [] + [main] == [main];
    }
  }

  lemma {:induction false} ReadAssignmentsAreNames(tokens: seq<Token>)
    ensures ReadSimple(tokens).Some? ==> NamesOk(ReadSimple(tokens).value.assignments)
  {
    if tokens != [] && tokens[0].Word? && IsAssignment(tokens[0].marks) && |tokens| > 1 {
      ReadAssignmentsAreNames(tokens[1..]);
    }
  }

  lemma {:induction false} ListAssignmentsAreNames(tokens: seq<Token>)
    ensures ReadList(tokens).Some? ==>
              forall i :: 0 <= i < |ReadList(tokens).value| ==> NamesOk(ReadList(tokens).value[i].assignments)
  {
    var i := FirstAnd(tokens);
    ReadAssignmentsAreNames(tokens[..i]);
    if i < |tokens| {
      ListAssignmentsAreNames(tokens[i + 1..]);
    }
  }

  /** What a shell name is, letter by letter. */
  lemma {:induction false} NameIs(s: string)
    ensures IsName(s) <==>
      && s != "" && !('0' <= s[0] <= '9')
      && forall c :: c in s ==> 'a' <= c <= 'z' || 'A' <= c <= 'Z' || '0' <= c <= '9' || c == '_'
  {
    if IsName(s) {
      assert forall c :: c in s ==> exists i :: 0 <= i < |s| && s[i] == c;
    } else if s != "" {
      assert forall i :: 0 <= i < |s| ==> s[i] in s;
    }
  }

  /** The exact reach of the round trip: it holds for an environment if and only if all its defined keys are names. */
  lemma {:induction false} RoundTripNeedsNames(cmd: string, args: seq<string>, cwd: string, env: Env)
    ensures ReadCommandLine(ComposeRemoteCommand(cmd, args, cwd, env)) == Some(Meaning(cmd, args, cwd, env))
            <==> forall i :: 0 <= i < |env| && env[i].1.Some? ==>
                   && env[i].0 != "" && !('0' <= env[i].0[0] <= '9')
                   && forall c :: c in env[i].0 ==>
                        'a' <= c <= 'z' || 'A' <= c <= 'Z' || '0' <= c <= '9' || c == '_'
  {
    DefinedNames(env);
    forall i | 0 <= i < |env|
      ensures IsName(env[i].0) <==>
        && env[i].0 != "" && !('0' <= env[i].0[0] <= '9')
        && forall c :: c in env[i].0 ==> 'a' <= c <= 'z' || 'A' <= c <= 'Z' || '0' <= c <= '9' || c == '_' {
      NameIs(env[i].0);
    }
    hide IsName;
    if NamesOk(Defined(env)) {
      MeaningReadsBack(cmd, args, cwd, env);
    } else {
      var tokens := Lex(ComposeRemoteCommand(cmd, args, cwd, env), None);
      if tokens.Some? {
        ListAssignmentsAreNames(tokens.value);
      }
      var m := Meaning(cmd, args, cwd, env);
      assert m[|m| - 1].assignments == Defined(env);
    }
  }

  // ---- hooks: a command line inside a command line ----

  function PlainWords(words: seq<string>): seq<Token> {
    if words == [] then [] else [Word(Marks(words[0], false))] + PlainWords(words[1..])
  }

  /** `head... 'a' tail... 'b'`: the shape of both hook commands. */
  function HookLine(head: seq<string>, a: string, tail: seq<string>, b: string): string {
    Spaced(head, Quote(a) + " " + Spaced(tail, Quote(b)))
  }

  function Spaced(words: seq<string>, rest: string): string {
    if words == [] then rest else words[0] + " " + Spaced(words[1..], rest)
  }

  predicate AllPlain(words: seq<string>) {
    forall k :: 0 <= k < |words| ==> PlainWord(words[k])
  }

  predicate PlainWord(w: string) {
    w != "" && forall i :: 0 <= i < |w| ==> IsPlain(w[i]) && w[i] != '='
  }

  lemma {:induction false} LexSpaced(words: seq<string>, rest: string)
    requires AllPlain(words)
    ensures Lex(Spaced(words, rest), None) == Prepend(PlainWords(words), Lex(rest, None))
  {
    if words == [] {
      PrependTwice([], [], Lex(rest, None));
    } else {
      assert PlainWord(words[0]);
      LexPlainWord(words[0], Spaced(words[1..], rest));
      LexSpaced(words[1..], rest);
      PrependTwice([Word(Marks(words[0], false))], PlainWords(words[1..]), Lex(rest, None));
      assert Spaced(words, rest) == words[0] + (" " + Spaced(words[1..], rest));
    }
  }

  lemma {:induction false} LexHookLine(head: seq<string>, a: string, tail: seq<string>, b: string)
    requires AllPlain(head) && AllPlain(tail)
    ensures Lex(HookLine(head, a, tail, b), None)
         == Some(PlainWords(head) + ([Word(Marks(a, true))] + (PlainWords(tail) + [Word(Marks(b, true))])))
  {
    LexLastQuotedWord(b);
    LexSpaced(tail, Quote(b));
    LexQuotedWord(a, Spaced(tail, Quote(b)));
    LexSpaced(head, Quote(a) + (" " + Spaced(tail, Quote(b))));
    assert Quote(a) + " " + Spaced(tail, Quote(b)) == Quote(a) + (" " + Spaced(tail, Quote(b)));
  }

  lemma {:induction false} ArgvConcat(a: seq<Token>, b: seq<Token>)
    ensures Argv(a + b) == if Argv(a).None? || Argv(b).None? then None else Some(Argv(a).value + Argv(b).value)
  {
    if a == [] {
      assert a + b == b;
      assert Argv(b).Some? ==> [] + Argv(b).value == Argv(b).value;
    } else {
      ArgvConcat(a[1..], b);
      assert (a + b)[1..] == a[1..] + b;
      if a[0].Word? && Argv(a[1..]).Some? && Argv(b).Some? {
        var w := [Letters(a[0].marks)];
        assert w + (Argv(a[1..]).value + Argv(b).value) == w + Argv(a[1..]).value + Argv(b).value;
      }
    }
  }

  lemma {:induction false} ArgvOfPlainWords(words: seq<string>)
    ensures Argv(PlainWords(words)) == Some(words)
    ensures FirstAnd(PlainWords(words)) == |PlainWords(words)|
  {
    if words != [] {
      ArgvOfPlainWords(words[1..]);
      LettersOfMarks(words[0], false);
      assert PlainWords(words)[1..] == PlainWords(words[1..]);
      assert [words[0]] + words[1..] == words;
    }
  }

  lemma {:induction false} ArgvHasNoAnd(tokens: seq<Token>)
    requires Argv(tokens).Some?
    ensures FirstAnd(tokens) == |tokens|
  {
    if tokens != [] {
      ArgvHasNoAnd(tokens[1..]);
    }
  }

  /** A hook line is one simple command whose argument vector is given word for word. */
  lemma {:induction false} HookLineReads(head: seq<string>, a: string, tail: seq<string>, b: string)
    requires AllPlain(head) && AllPlain(tail) && head != []
    ensures ReadCommandLine(HookLine(head, a, tail, b))
         == Some([SimpleCommand([], head + ([a] + (tail + [b])))])
  {
    LexHookLine(head, a, tail, b);
    var last := PlainWords(tail) + [Word(Marks(b, true))];
    var mid := [Word(Marks(a, true))] + last;
    var tokens := PlainWords(head) + mid;
    LettersOfMarks(a, true);
    LettersOfMarks(b, true);
    ArgvOfOne(Marks(a, true));
    ArgvOfOne(Marks(b, true));
    ArgvOfPlainWords(head);
    ArgvOfPlainWords(tail);
    ArgvConcat(PlainWords(tail), [Word(Marks(b, true))]);
    ArgvConcat([Word(Marks(a, true))], last);
    ArgvConcat(PlainWords(head), mid);
    ArgvHasNoAnd(tokens);
    ReadAndList(tokens, []);
    assert tokens[0] == Word(Marks(head[0], false)) && PlainWord(head[0]);
    LettersOfMarks(head[0], false);
    assert !IsAssignment(tokens[0].marks);
  }

  lemma {:induction false} SpacedTwo(a: string, b: string, rest: string)
    ensures Spaced([a, b], rest) == a + " " + (b + " " + rest)
  {
    assert [a, b][1..] == [b] && [b][1..] == [];
    assert Spaced([b], rest) == b + " " + Spaced([], rest);
  }

  lemma {:induction false} PreHookIsHookLine(name: string, command: string)
    ensures PreDeployCommand(name, command) == HookLine(["docker", "run", "--rm"], name, ["sh", "-c"], command)
  {
    hide Quote;
    var n, c := Quote(name), Quote(command);
    SpacedTwo("sh", "-c", c);
    var rest := n + " " + ("sh" + " " + ("-c" + " " + c));
    SpacedTwo("run", "--rm", rest);
    assert ["docker", "run", "--rm"][1..] == ["run", "--rm"];
    assert Spaced(["docker", "run", "--rm"], rest) == "docker" + " " + ("run" + " " + ("--rm" + " " + rest));
    ShCommand(n, c);
    assert "docker" + " " + ("run" + " " + ("--rm" + " " + rest)) == "docker run --rm " + rest;
    assert "docker run --rm " + (n + " sh -c " + c) == "docker run --rm " + n + " sh -c " + c;
  }

  lemma {:induction false} PostHookIsHookLine(name: string, command: string)
    ensures PostDeployCommand(name, command) == HookLine(["docker", "exec"], name, ["sh", "-c"], command)
  {
    hide Quote;
    var n, c := Quote(name), Quote(command);
    SpacedTwo("sh", "-c", c);
    var rest := n + " " + ("sh" + " " + ("-c" + " " + c));
    SpacedTwo("docker", "exec", rest);
    ShCommand(n, c);
    assert "docker" + " " + ("exec" + " " + rest) == "docker exec " + rest;
    assert "docker exec " + (n + " sh -c " + c) == "docker exec " + n + " sh -c " + c;
  }

  lemma {:induction false} ShCommand(n: string, c: string)
    ensures n + " " + ("sh" + " " + ("-c" + " " + c)) == n + " sh -c " + c
  {
    assert " sh -c " == " " + "sh" + " " + "-c" + " ";
    assert n + " " + ("sh" + " " + ("-c" + " " + c)) == n + (" " + "sh" + " " + "-c" + " ") + c;
  }

  lemma {:induction false} BashReads(line: string)
    ensures ReadCommandLine(ComposeRemoteCommand("bash", ["-c", line], "", []))
         == Some([SimpleCommand([], ["bash", "-c", line])])
  {
    ComposedCommandReadsBack("bash", ["-c", line], "", []);
    assert ["bash"] + ["-c", line] == ["bash", "-c", line];
    assert Meaning("bash", ["-c", line], "", []) == [SimpleCommand([], ["bash", "-c", line])];
  }

  /** Both layers of a hook sent to a worker: the shell on the worker gets `bash -c <line>`, and bash
      reads that line as the docker command with the image or container name and the user's command intact. */
  lemma {:induction false} HooksReadBack(name: string, command: string)
    ensures ReadCommandLine(ComposeRemoteCommand("bash", ["-c", PreDeployCommand(name, command)], "", []))
         == Some([SimpleCommand([], ["bash", "-c", PreDeployCommand(name, command)])])
    ensures ReadCommandLine(PreDeployCommand(name, command))
         == Some([SimpleCommand([], ["docker", "run", "--rm"] + ([name] + (["sh", "-c"] + [command])))])
    ensures ReadCommandLine(ComposeRemoteCommand("bash", ["-c", PostDeployCommand(name, command)], "", []))
         == Some([SimpleCommand([], ["bash", "-c", PostDeployCommand(name, command)])])
    ensures ReadCommandLine(PostDeployCommand(name, command))
         == Some([SimpleCommand([], ["docker", "exec"] + ([name] + (["sh", "-c"] + [command])))])
  {
    BashReads(PreDeployCommand(name, command));
    BashReads(PostDeployCommand(name, command));
    PreHookIsHookLine(name, command);
    PostHookIsHookLine(name, command);
    HookWordsArePlain();
    HookLineReads(["docker", "run", "--rm"], name, ["sh", "-c"], command);
    HookLineReads(["docker", "exec"], name, ["sh", "-c"], command);
  }

  lemma {:induction false} HookWordsArePlain()
    ensures AllPlain(["docker", "run", "--rm"]) && AllPlain(["docker", "exec"]) && AllPlain(["sh", "-c"])
  {
    assert PlainWord("docker") && PlainWord("run") && PlainWord("--rm");
    assert PlainWord("exec") && PlainWord("sh") && PlainWord("-c");
  }
}
