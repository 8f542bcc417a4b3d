/** The child-process line reader of deploy/exec.ts: chunks of decoded output become lines. */
module LineReader {
  import opened Text

  datatype Stream = Stdout | Stderr

  /** A captured line. `notice` marks the reader's own timeout and cancel lines on stderr. */
  datatype ExecLine = ExecLine(stream: Stream, line: string, notice: bool)

  datatype ExecResult = ExecResult(code: int, lines: seq<ExecLine>, timedOut: bool, aborted: bool)

  /** What reaches runCommand while the child lives, in any order. */
  datatype ChildEvent = Data(stream: Stream, chunk: string) | Timeout | Abort

  // ---- reference: cutting a whole text at its newlines ----

  function Pieces(text: string): (p: seq<string>)
    ensures p != []
  {
    if text == "" then [""]
    else
      var rest := Pieces(text[1..]);
      if text[0] == '\n' then [""] + rest else [[text[0]] + rest[0]] + rest[1..]
  }

  function Front(p: seq<string>): seq<string>
    requires p != []
  {
    p[..|p| - 1]
  }

  function Last(p: seq<string>): string
    requires p != []
  {
    p[|p| - 1]
  }

  /** The lines of a text: its pieces, without an empty last one. */
  function Lines(text: string): seq<string> {
    var p := Pieces(text);
    if Last(p) == "" then Front(p) else p
  }

  lemma {:induction false} JoinCons(p: seq<string>, c: char)
    requires p != []
    ensures Join([""] + p, "\n") == "\n" + Join(p, "\n")
    ensures Join([[c] + p[0]] + p[1..], "\n") == [c] + Join(p, "\n")
  {
    assert ([""] + p)[1..] == p && "" + "\n" == "\n";
    var q := [[c] + p[0]] + p[1..];
    assert q[1..] == p[1..];
    if |p| > 1 {
      PlusAssociates([c] + p[0], "\n", Join(p[1..], "\n"));
    }
  }

  lemma {:induction false} PiecesRebuild(text: string)
    ensures Join(Pieces(text), "\n") == text
    ensures forall i :: 0 <= i < |Pieces(text)| ==> '\n' !in Pieces(text)[i]
  {
    if text != "" {
      hide Join;
      var rest := Pieces(text[1..]);
      PiecesRebuild(text[1..]);
      JoinCons(rest, text[0]);
      assert text == [text[0]] + text[1..];
    }
  }

  /** p then q, the last of p and the first of q being one piece. */
  function Glue(p: seq<string>, q: seq<string>): seq<string>
    requires p != [] && q != []
  {
    Front(p) + [Last(p) + q[0]] + q[1..]
  }

  lemma {:induction false} GlueCons(c: string, p: seq<string>, q: seq<string>)
    requires p != [] && q != []
    ensures Glue([c] + p, q) == [c] + Glue(p, q)
    ensures Glue([c + p[0]] + p[1..], q) == [c + Glue(p, q)[0]] + Glue(p, q)[1..]
  {
    assert Front([c] + p) == [c] + Front(p);
    var p', g := [c + p[0]] + p[1..], Glue(p, q);
    if |p| == 1 {
      assert Front(p') == [] && Last(p') == c + p[0];
      assert c + (p[0] + q[0]) == c + p[0] + q[0];
    } else {
      assert Front(p') == [c + p[0]] + Front(p)[1..] && Last(p') == Last(p);
      assert g[0] == p[0] && g[1..] == Front(p)[1..] + [Last(p) + q[0]] + q[1..];
    }
  }

  /** Cutting a + b: the last piece of a and the first piece of b are one. */
  lemma {:induction false} PiecesOfConcat(a: string, b: string)
    ensures Pieces(a + b) == Glue(Pieces(a), Pieces(b))
  {
    if a == "" {
      assert a + b == b;
      var q := Pieces(b);
      assert Front([""]) == [] && Last([""]) + q[0] == q[0];
      assert Glue(Pieces(a), q) == [q[0]] + q[1..];
    } else {
      PiecesOfConcat(a[1..], b);
      assert (a + b)[1..] == a[1..] + b;
      GlueCons(if a[0] == '\n' then "" else [a[0]], Pieces(a[1..]), Pieces(b));
    }
  }

  lemma {:induction false} PiecesOfOneLine(s: string)
    requires '\n' !in s
    ensures Pieces(s) == [s]
  {
    if s != "" {
      PiecesOfOneLine(s[1..]);
      assert s == [s[0]] + s[1..];
    }
  }

  /** Cutting seen + chunk needs only the unfinished line of what was seen. */
  lemma {:induction false} PiecesResume(seen: string, chunk: string)
    ensures Pieces(seen + chunk) == Front(Pieces(seen)) + Pieces(Last(Pieces(seen)) + chunk)
  {
    hide Pieces, Join, Glue;
    var p, tail := Pieces(seen), Last(Pieces(seen));
    PiecesRebuild(seen);
    PiecesOfConcat(seen, chunk);
    PiecesOfConcat(tail, chunk);
    PiecesOfOneLine(p[|p| - 1]);
    GlueLast(p, Pieces(chunk));
  }

  lemma {:induction false} GlueLast(p: seq<string>, q: seq<string>)
    requires p != [] && q != []
    ensures Glue(p, q) == Front(p) + Glue([Last(p)], q)
  {
    assert Front([Last(p)]) == [] && Glue([Last(p)], q) == [Last(p) + q[0]] + q[1..];
    PlusAssociates(Front(p), [Last(p) + q[0]], q[1..]);
  }

  /** The lines rebuild the text: joined by newlines, with one more only when the text ends in one. */
  lemma {:induction false} LinesRebuild(text: string)
    ensures text == Join(Lines(text), "\n") + (if text != "" && text[|text| - 1] == '\n' then "\n" else "")
    ensures forall i :: 0 <= i < |Lines(text)| ==> '\n' !in Lines(text)[i]
  {
    PiecesRebuild(text);
    LastPiece(text);
    var p := Pieces(text);
    if Last(p) == "" {
      assert p == Front(p) + [""];
      JoinWithEmptyLast(Front(p));
    }
  }

  lemma {:induction false} LastPiece(text: string)
    ensures Last(Pieces(text)) == "" <==> text == "" || text[|text| - 1] == '\n'
    ensures |Pieces(text)| == 1 <==> '\n' !in text
  {
    if text != "" {
      LastPiece(text[1..]);
      assert text == [text[0]] + text[1..];
    }
  }

  lemma {:induction false} JoinWithEmptyLast(p: seq<string>)
    ensures Join(p + [""], "\n") == if p == [] then "" else Join(p, "\n") + "\n"
  {
    if p == [] {
      assert p + [""] == [""];
    } else {
      JoinWithEmptyLast(p[1..]);
      assert (p + [""])[1..] == p[1..] + [""];
    }
  }

  lemma {:induction false} CutFirstLine(buf: string, idx: nat)
    requires idx < |buf| && buf[idx] == '\n' && '\n' !in buf[..idx]
    ensures Pieces(buf) == [buf[..idx]] + Pieces(buf[idx + 1..])
  {
    var l, rest := buf[..idx], buf[idx..];
    assert buf == l + rest && rest[1..] == buf[idx + 1..];
    PiecesOfConcat(l, rest);
    PiecesOfOneLine(l);
    assert l + "" == l;
    var q := Pieces(rest);
    assert q == [""] + Pieces(buf[idx + 1..]);
    assert q[1..] == Pieces(buf[idx + 1..]);
  }

  function IndexOfNewline(s: string): (i: int)
    ensures -1 <= i < |s|
    ensures i >= 0 ==> s[i] == '\n' && '\n' !in s[..i]
    ensures i == -1 ==> '\n' !in s
  {
    if s == "" then -1
    else if s[0] == '\n' then 0
    else
      var r := IndexOfNewline(s[1..]);
      assert s == [s[0]] + s[1..];
      if r == -1 then -1 else assert s[..r + 1] == [s[0]] + s[1..][..r]; r + 1
  }

  /** One stream's reader: the closure makeReader returns, with its unfinished line. */
  class Reader {
    var buf: string
    ghost var seen: string  // everything received so far

    constructor ()
      ensures Valid() && seen == ""
    {
      buf, seen := "", "";
    }

    ghost predicate Valid()
      reads this
    {
      buf == Last(Pieces(seen))
    }

    /** Takes a chunk and emits the lines it completes. */
    method OnData(chunk: string) returns (emitted: seq<string>)
      requires Valid()
      modifies this
      ensures Valid() && seen == old(seen) + chunk
      ensures Front(Pieces(seen)) == Front(Pieces(old(seen))) + emitted
    {
      hide Pieces, IndexOfNewline;
      PiecesResume(seen, chunk);
      buf := buf + chunk;
      ghost var todo := Pieces(buf);
      emitted := [];
      var idx := IndexOfNewline(buf);
      while idx >= 0
        invariant idx == IndexOfNewline(buf)
        invariant emitted + Pieces(buf) == todo
        invariant seen == old(seen)
        decreases |buf|
      {
        CutFirstLine(buf, idx);
        PlusAssociates(emitted, [buf[..idx]], Pieces(buf[idx + 1..]));
        emitted := emitted + [buf[..idx]];
        buf := buf[idx + 1..];
        idx := IndexOfNewline(buf);
      }
      PiecesOfOneLine(buf);
      ghost var before := Front(Pieces(seen));
      seen := seen + chunk;
      PlusAssociates(before, emitted, [buf]);
      assert Pieces(seen) == (before + emitted) + [buf];
    }

    /** The final unterminated line, if there is one. */
    method Flush() returns (emitted: seq<string>)
      requires Valid()
      modifies this`buf
      ensures buf == ""
      ensures Front(Pieces(seen)) + emitted == Lines(seen)
    {
      assert Pieces(seen) == Front(Pieces(seen)) + [buf];
      if |buf| > 0 {
        emitted := [buf];
        buf := "";
      } else {
        emitted := [];
      }
    }
  }

  // ---- projections of a run ----

  /** What the child itself wrote on one stream, line by line. */
  function ChildLines(lines: seq<ExecLine>, stream: Stream): seq<string> {
    if lines == [] then []
    else if lines[0].stream == stream && !lines[0].notice then [lines[0].line] + ChildLines(lines[1..], stream)
    else ChildLines(lines[1..], stream)
  }

  /** What an event adds to the decoded text of one stream. */
  function ChunkOf(e: ChildEvent, stream: Stream): string {
    if e.Data? && e.stream == stream then e.chunk else ""
  }

  /** The decoded text of one stream. */
  function TextOf(events: seq<ChildEvent>, stream: Stream): string {
    if events == [] then "" else TextOf(events[..|events| - 1], stream) + ChunkOf(events[|events| - 1], stream)
  }

  /** The reader's own lines, in order. */
  function Notices(lines: seq<ExecLine>): seq<ExecLine> {
    if lines == [] then []
    else if lines[0].notice then [lines[0]] + Notices(lines[1..])
    else Notices(lines[1..])
  }

  lemma {:induction false} ChildLinesConcat(a: seq<ExecLine>, b: seq<ExecLine>, stream: Stream)
    ensures ChildLines(a + b, stream) == ChildLines(a, stream) + ChildLines(b, stream)
  {
    if a == [] {
      assert a + b == b;
    } else {
      ChildLinesConcat(a[1..], b, stream);
      assert (a + b)[1..] == a[1..] + b;
      PlusAssociates([a[0].line], ChildLines(a[1..], stream), ChildLines(b, stream));
    }
  }

  lemma {:induction false} NoticesConcat(a: seq<ExecLine>, b: seq<ExecLine>)
    ensures Notices(a + b) == Notices(a) + Notices(b)
  {
    if a == [] {
      assert a + b == b;
    } else {
      NoticesConcat(a[1..], b);
      assert (a + b)[1..] == a[1..] + b;
      PlusAssociates([a[0]], Notices(a[1..]), Notices(b));
    }
  }

  function NoticeOf(e: ChildEvent, onTimeout: string, onAbort: string): seq<ExecLine> {
    match e
    case Data(_, _) => []
    case Timeout => [ExecLine(Stderr, onTimeout, true)]
    case Abort => [ExecLine(Stderr, onAbort, true)]
  }

  /** The notices a run of events calls for, given their two texts. */
  function NoticesOf(events: seq<ChildEvent>, onTimeout: string, onAbort: string): seq<ExecLine> {
    if events == [] then []
    else NoticesOf(events[..|events| - 1], onTimeout, onAbort) + NoticeOf(events[|events| - 1], onTimeout, onAbort)
  }

  function Other(stream: Stream): Stream {
    if stream == Stdout then Stderr else Stdout
  }

  function Tagged(emitted: seq<string>, stream: Stream): seq<ExecLine> {
    if emitted == [] then [] else [ExecLine(stream, emitted[0], false)] + Tagged(emitted[1..], stream)
  }

  lemma {:induction false} TaggedLines(emitted: seq<string>, stream: Stream)
    ensures ChildLines(Tagged(emitted, stream), stream) == emitted
    ensures ChildLines(Tagged(emitted, stream), Other(stream)) == []
    ensures Notices(Tagged(emitted, stream)) == []
  {
    if emitted != [] {
      TaggedLines(emitted[1..], stream);
      assert Tagged(emitted, stream)[1..] == Tagged(emitted[1..], stream);
    }
  }

  /** Appending what one reader emitted. */
  lemma {:induction false} AppendTagged(lines: seq<ExecLine>, emitted: seq<string>, stream: Stream)
    ensures ChildLines(lines + Tagged(emitted, stream), stream) == ChildLines(lines, stream) + emitted
    ensures ChildLines(lines + Tagged(emitted, stream), Other(stream)) == ChildLines(lines, Other(stream))
    ensures Notices(lines + Tagged(emitted, stream)) == Notices(lines)
  {
    TaggedLines(emitted, stream);
    ChildLinesConcat(lines, Tagged(emitted, stream), stream);
    ChildLinesConcat(lines, Tagged(emitted, stream), Other(stream));
    NoticesConcat(lines, Tagged(emitted, stream));
  }

  lemma {:induction false} AppendNotice(lines: seq<ExecLine>, text: string)
    ensures ChildLines(lines + [ExecLine(Stderr, text, true)], Stdout) == ChildLines(lines, Stdout)
    ensures ChildLines(lines + [ExecLine(Stderr, text, true)], Stderr) == ChildLines(lines, Stderr)
    ensures Notices(lines + [ExecLine(Stderr, text, true)]) == Notices(lines) + [ExecLine(Stderr, text, true)]
  {
    ChildLinesConcat(lines, [ExecLine(Stderr, text, true)], Stdout);
    ChildLinesConcat(lines, [ExecLine(Stderr, text, true)], Stderr);
    NoticesConcat(lines, [ExecLine(Stderr, text, true)]);
  }

  /** One event: the lines it adds. */
  method OnEvent(e: ChildEvent, out: Reader, err: Reader, onTimeout: string, onAbort: string, before: seq<ExecLine>)
    returns (lines: seq<ExecLine>)
    requires out.Valid() && err.Valid() && out != err
    modifies out, err
    ensures out.Valid() && err.Valid()
    ensures out.seen == old(out.seen) + ChunkOf(e, Stdout) && err.seen == old(err.seen) + ChunkOf(e, Stderr)
    ensures ChildLines(before, Stdout) == Front(Pieces(old(out.seen)))
            ==> ChildLines(lines, Stdout) == Front(Pieces(out.seen))
    ensures ChildLines(before, Stderr) == Front(Pieces(old(err.seen)))
            ==> ChildLines(lines, Stderr) == Front(Pieces(err.seen))
    ensures Notices(lines) == Notices(before) + NoticeOf(e, onTimeout, onAbort)
  {
    match e {
      case Data(stream, chunk) =>
        var emitted;
        if stream == Stdout {
          emitted := out.OnData(chunk);
        } else {
          emitted := err.OnData(chunk);
        }
        AppendTagged(before, emitted, stream);
        lines := before + Tagged(emitted, stream);
      case Timeout =>
        AppendNotice(before, onTimeout);
        lines := before + [ExecLine(Stderr, onTimeout, true)];
      case Abort =>
        AppendNotice(before, onAbort);
        lines := before + [ExecLine(Stderr, onAbort, true)];
    }
  }

  /** The child's streams have closed: what is still buffered becomes the last lines. */
  method OnClose(out: Reader, err: Reader, before: seq<ExecLine>) returns (lines: seq<ExecLine>)
    requires out.Valid() && err.Valid() && out != err
    requires ChildLines(before, Stdout) == Front(Pieces(out.seen))
    requires ChildLines(before, Stderr) == Front(Pieces(err.seen))
    modifies out`buf, err`buf
    ensures ChildLines(lines, Stdout) == Lines(out.seen) && ChildLines(lines, Stderr) == Lines(err.seen)
    ensures Notices(lines) == Notices(before)
  {
    var rest := out.Flush();
    AppendTagged(before, rest, Stdout);
    lines := before + Tagged(rest, Stdout);
    rest := err.Flush();
    AppendTagged(lines, rest, Stderr);
    lines := lines + Tagged(rest, Stderr);
  }

  lemma {:induction false} OneMoreEvent(past: seq<ChildEvent>, e: ChildEvent, onTimeout: string, onAbort: string)
    ensures TextOf(past + [e], Stdout) == TextOf(past, Stdout) + ChunkOf(e, Stdout)
    ensures TextOf(past + [e], Stderr) == TextOf(past, Stderr) + ChunkOf(e, Stderr)
    ensures NoticesOf(past + [e], onTimeout, onAbort)
         == NoticesOf(past, onTimeout, onAbort) + NoticeOf(e, onTimeout, onAbort)
  {
    assert (past + [e])[..|past|] == past;
  }

  /** The lines so far are those the reader has completed of its stream's text. */
  ghost predicate Tracks(r: Reader, lines: seq<ExecLine>, past: seq<ChildEvent>, stream: Stream)
    reads r
  {
    r.Valid() && r.seen == TextOf(past, stream) && ChildLines(lines, stream) == Front(Pieces(r.seen))
  }

  /** One more event after `past`. */
  method OnNext(ghost past: seq<ChildEvent>, e: ChildEvent, out: Reader, err: Reader,
                onTimeout: string, onAbort: string, before: seq<ExecLine>)
    returns (lines: seq<ExecLine>)
    requires out != err && Tracks(out, before, past, Stdout) && Tracks(err, before, past, Stderr)
    requires Notices(before) == NoticesOf(past, onTimeout, onAbort)
    modifies out, err
    ensures Tracks(out, lines, past + [e], Stdout) && Tracks(err, lines, past + [e], Stderr)
    ensures Notices(lines) == NoticesOf(past + [e], onTimeout, onAbort)
  {
    OneMoreEvent(past, e, onTimeout, onAbort);
    lines := OnEvent(e, out, err, onTimeout, onAbort, before);
  }

  lemma {:induction false} NothingYet(onTimeout: string, onAbort: string)
    ensures Front(Pieces("")) == [] && TextOf([], Stdout) == TextOf([], Stderr) == ""
    ensures ChildLines([], Stdout) == ChildLines([], Stderr) == []
    ensures Notices([]) == NoticesOf([], onTimeout, onAbort) == []
  {
  }

  /** Everything between spawn and close: lines, timedOut and aborted as the events update them. */
  method Attend(events: seq<ChildEvent>, onTimeout: string, onAbort: string)
    returns (lines: seq<ExecLine>, timedOut: bool, aborted: bool)
    ensures ChildLines(lines, Stdout) == Lines(TextOf(events, Stdout))
    ensures ChildLines(lines, Stderr) == Lines(TextOf(events, Stderr))
    ensures timedOut == (Timeout in events) && aborted == (Abort in events)
    ensures Notices(lines) == NoticesOf(events, onTimeout, onAbort)
  {
    NothingYet(onTimeout, onAbort);
    hide Pieces, TextOf, ChildLines, Notices, NoticesOf;
    var out := new Reader();
    var err := new Reader();
    lines, timedOut, aborted := [], false, false;
    ghost var past: seq<ChildEvent> := [];
    for i := 0 to |events|
      invariant past == events[..i] && out != err
      invariant Tracks(out, lines, past, Stdout) && Tracks(err, lines, past, Stderr)
      invariant timedOut == (Timeout in past) && aborted == (Abort in past)
      invariant Notices(lines) == NoticesOf(past, onTimeout, onAbort)
    {
      lines := OnNext(past, events[i], out, err, onTimeout, onAbort, lines);
      timedOut, aborted := timedOut || events[i] == Timeout, aborted || events[i] == Abort;
      past := past + [events[i]];
    }
    assert past == events;
    lines := OnClose(out, err, lines);
  }

  /** runCommand from spawn to close, over every order of output, timeout and abort events.
      Each stream's lines are the lines of its whole text however it was cut into chunks, so an
      unterminated last line is kept; a killed child always reports -1. */
  method RunCommand(cmd: string, seconds: nat, preAborted: bool, events: seq<ChildEvent>, exitCode: Option<int>)
    returns (result: ExecResult)
    ensures preAborted ==> result == ExecResult(-1, [ExecLine(Stderr, "cancelled", true)], false, true)
    ensures !preAborted ==>
              && ChildLines(result.lines, Stdout) == Lines(TextOf(events, Stdout))
              && ChildLines(result.lines, Stderr) == Lines(TextOf(events, Stderr))
              && Notices(result.lines)
                 == NoticesOf(events, "timed out after " + Decimal(seconds) + "s — killing " + cmd,
                              "cancelled — killing " + cmd)
              && (result.timedOut <==> Timeout in events)
              && (result.aborted <==> Abort in events)
              && result.code == (if Timeout in events || Abort in events then -1 else exitCode.GetOr(-1))
  {
    if preAborted {
      return ExecResult(-1, [ExecLine(Stderr, "cancelled", true)], false, true);
    }
    var lines, timedOut, aborted := Attend(
      events, "timed out after " + Decimal(seconds) + "s — killing " + cmd, "cancelled — killing " + cmd);
    result := ExecResult(if timedOut || aborted then -1 else exitCode.GetOr(-1), lines, timedOut, aborted);
  }
}
