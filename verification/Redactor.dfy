/** The log redactor of deploy/log-writer.ts: registered secrets are replaced at ingest, in the order they
    were registered. */
module Redactor {
  import opened Text

  const INSIDE := "redacted"

  const MARK := "[" + INSIDE + "]"

  predicate At(s: string, i: int, p: string) {
    0 <= i && i + |p| <= |s| && s[i..i + |p|] == p
  }

  ghost predicate Contains(s: string, p: string) {
    exists i :: At(s, i, p)
  }

  /** split(p).join(mark): each leftmost occurrence, without overlaps. */
  function ReplaceAll(s: string, p: string, mark: string): string
    requires p != ""
  {
    if s == "" then ""
    else if At(s, 0, p) then mark + ReplaceAll(s[|p|..], p, mark)
    else [s[0]] + ReplaceAll(s[1..], p, mark)
  }

  predicate NoneEmpty(secrets: seq<string>) {
    "" !in secrets
  }

  function RedactAll(line: string, secrets: seq<string>): string
    requires NoneEmpty(secrets)
    decreases |secrets|
  {
    if secrets == [] then line
    else RedactAll(ReplaceAll(line, secrets[0], MARK), secrets[1..])
  }

  /** Registering: shorter than four characters or already known is ignored. */
  function WithSecret(secrets: seq<string>, secret: string): seq<string> {
    if |secret| >= 4 && secret !in secrets then secrets + [secret] else secrets
  }

  class Redactor {
    var secrets: seq<string>

    constructor ()
      ensures secrets == []
    {
      secrets := [];
    }

    method Add(secret: string)
      modifies this
      ensures secrets == WithSecret(old(secrets), secret)
      ensures Registered(old(secrets)) ==> Registered(secrets) && NoneEmpty(secrets)
    {
      if secret != "" && |secret| >= 4 {
        if secret !in secrets {
          secrets := secrets + [secret];
        }
      }
    }

    method Redact(line: string) returns (out: string)
      requires NoneEmpty(secrets)
      ensures out == RedactAll(line, secrets)
    {
      out := line;
      var i := 0;
      while i < |secrets|
        invariant i <= |secrets|
        invariant RedactAll(out, secrets[i..]) == RedactAll(line, secrets)
      {
        assert secrets[i..][1..] == secrets[i + 1..];
        out := ReplaceAll(out, secrets[i], MARK);
        i := i + 1;
      }
    }
  }

  /** What Add can have registered. */
  ghost predicate Registered(secrets: seq<string>) {
    && (forall i :: 0 <= i < |secrets| ==> |secrets[i]| >= 4)
    && (forall i, j :: 0 <= i < j < |secrets| ==> secrets[i] != secrets[j])
  }

  // ---- what redaction leaves ----

  /** Laid over the mark with its first character at position -d of it, p agrees with the mark on all they share. */
  predicate Agrees(p: string, d: int) {
    forall j :: 0 <= j < |p| && 0 <= j - d < |MARK| ==> p[j] == MARK[j - d]
  }

  /** p can share characters with a mark: it lies in it, holds it, or sticks out of one of its ends. */
  ghost predicate Overlaps(p: string) {
    exists d :: -|MARK| < d < |p| && Agrees(p, d)
  }

  lemma {:induction false} CharAt(s: string, i: int, p: string, k: int)
    requires At(s, i, p) && 0 <= k < |p|
    ensures s[i + k] == p[k]
  {
    assert s[i..i + |p|][k] == s[i + k];
  }

  lemma {:induction false} AtByChars(s: string, i: int, p: string)
    requires 0 <= i && i + |p| <= |s| && forall k :: 0 <= k < |p| ==> s[i + k] == p[k]
    ensures At(s, i, p)
  {
  }

  lemma {:induction false} AtTail(head: string, s: string, i: int, p: string)
    requires i >= |head|
    ensures At(head + s, i, p) <==> At(s, i - |head|, p)
  {
    if i + |p| <= |head| + |s| {
      assert (head + s)[i..i + |p|] == s[i - |head|..i - |head| + |p|];
    }
  }

  lemma {:induction false} ContainsTail(head: string, s: string, p: string)
    requires Contains(s, p)
    ensures Contains(head + s, p)
  {
    var i :| At(s, i, p);
    AtTail(head, s, i + |head|, p);
  }

  lemma {:induction false} AtCons(c: char, rest: string, x: char, tail: string)
    ensures At([c] + rest, 0, [x] + tail) <==> c == x && At(rest, 0, tail)
  {
    var s, p := [c] + rest, [x] + tail;
    if At(s, 0, p) {
      CharAt(s, 0, p, 0);
      forall k | 0 <= k < |tail| ensures rest[k] == tail[k] {
        CharAt(s, 0, p, k + 1);
      }
      AtByChars(rest, 0, tail);
    }
    if c == x && At(rest, 0, tail) {
      forall k | 0 <= k < |p| ensures s[k] == p[k] {
        if k > 0 {
          CharAt(rest, 0, tail, k - 1);
        }
      }
      AtByChars(s, 0, p);
    }
  }

  /** An occurrence that meets the mark at the front of a text is an overlap. */
  lemma {:induction false} MeetsMark(s: string, p: string, i: int)
    requires p != "" && At(MARK + s, i, p) && i < |MARK|
    ensures Overlaps(p)
  {
    forall j | 0 <= j < |p| && 0 <= j + i < |MARK| ensures p[j] == MARK[j + i] {
      CharAt(MARK + s, i, p, j);
    }
    assert Agrees(p, -i);
  }

  /** The rest of a non-overlapping secret at the front of a redacted text was at the front of the text. */
  lemma {:induction false} FrontSurvives(s: string, q: string, p: string, k: nat)
    requires q != "" && 0 < k <= |p| && !Overlaps(p) && At(ReplaceAll(s, q, MARK), 0, p[k..])
    ensures At(s, 0, p[k..])
    decreases |p| - k
  {
    if k < |p| {
      var r := ReplaceAll(s, q, MARK);
      CharAt(r, 0, p[k..], 0);
      if At(s, 0, q) {
        var rest := ReplaceAll(s[|q|..], q, MARK);
        forall j | 0 <= j < |p| && 0 <= j - k < |MARK| ensures p[j] == MARK[j - k] {
          CharAt(MARK + rest, 0, p[k..], j - k);
        }
        assert Agrees(p, k);
        assert false;
      } else {
        var rest := ReplaceAll(s[1..], q, MARK);
        assert r == [s[0]] + rest && p[k..] == [p[k]] + p[k + 1..] && s == [s[0]] + s[1..];
        AtCons(s[0], rest, p[k], p[k + 1..]);
        FrontSurvives(s[1..], q, p, k + 1);
        AtCons(s[0], s[1..], p[k], p[k + 1..]);
      }
    }
  }

  /** Replacing creates no occurrence of a secret that cannot overlap a mark; replacing itself leaves none. */
  lemma {:induction false} NothingCreated(s: string, q: string, p: string, i: int)
    requires q != "" && p != "" && !Overlaps(p) && At(ReplaceAll(s, q, MARK), i, p)
    ensures q != p && Contains(s, p)
    decreases |s|
  {
    if At(s, 0, q) {
      var rest := s[|q|..];
      if i < |MARK| {
        MeetsMark(ReplaceAll(rest, q, MARK), p, i);
      }
      AtTail(MARK, ReplaceAll(rest, q, MARK), i, p);
      NothingCreated(rest, q, p, i - |MARK|);
      ContainsTail(s[..|q|], rest, p);
      assert s[..|q|] + rest == s;
    } else if i == 0 {
      FirstSurvives(s, q, p);
    } else {
      var rest := s[1..];
      AtTail([s[0]], ReplaceAll(rest, q, MARK), i, p);
      NothingCreated(rest, q, p, i - 1);
      ContainsTail([s[0]], rest, p);
      assert [s[0]] + rest == s;
    }
  }

  lemma {:induction false} FirstSurvives(s: string, q: string, p: string)
    requires q != "" && p != "" && !Overlaps(p) && At(ReplaceAll(s, q, MARK), 0, p) && !At(s, 0, q)
    ensures At(s, 0, p) && q != p
  {
    var r, rest := ReplaceAll(s, q, MARK), ReplaceAll(s[1..], q, MARK);
    assert r == [s[0]] + rest && p == [p[0]] + p[1..] && s == [s[0]] + s[1..];
    AtCons(s[0], rest, p[0], p[1..]);
    FrontSurvives(s[1..], q, p, 1);
    AtCons(s[0], s[1..], p[0], p[1..]);
  }

  lemma {:induction false} StaysClean(line: string, secrets: seq<string>, p: string)
    requires NoneEmpty(secrets) && p != "" && !Overlaps(p) && !Contains(line, p)
    ensures !Contains(RedactAll(line, secrets), p)
    decreases |secrets|
  {
    if secrets != [] {
      var next := ReplaceAll(line, secrets[0], MARK);
      if Contains(next, p) {
        var i :| At(next, i, p);
        NothingCreated(line, secrets[0], p, i);
      }
      StaysClean(next, secrets[1..], p);
    }
  }

  /** A registered secret that cannot overlap a mark is nowhere in the redacted line, whatever the other secrets
      are and in whatever order they were registered. */
  lemma {:induction false} RedactedIsClean(line: string, secrets: seq<string>, p: string)
    requires NoneEmpty(secrets) && p in secrets && !Overlaps(p)
    ensures !Contains(RedactAll(line, secrets), p)
    decreases |secrets|
  {
    var next := ReplaceAll(line, secrets[0], MARK);
    if p == secrets[0] {
      if Contains(next, p) {
        var i :| At(next, i, p);
        NothingCreated(line, secrets[0], p, i);
      }
      StaysClean(next, secrets[1..], p);
    } else {
      RedactedIsClean(next, secrets[1..], p);
    }
  }

  // ---- the secrets that can survive ----

  function Repeated(c: char, n: nat): (r: string)
    ensures |r| == n && forall k :: 0 <= k < n ==> r[k] == c
  {
    seq(n, i => c)
  }

  lemma {:induction false} NothingReplaced(s: string, q: string)
    requires q != "" && !Contains(s, q)
    ensures ReplaceAll(s, q, MARK) == s
  {
    if s != "" {
      assert !At(s, 0, q) && [s[0]] + s[1..] == s;
      if Contains(s[1..], q) {
        ContainsTail([s[0]], s[1..], q);
      }
      NothingReplaced(s[1..], q);
    }
  }

  lemma {:induction false} AtFront(s: string, p: string)
    ensures At(s, 0, p) <==> p <= s
  {
    if p <= s {
      assert s[..|p|] == p;
    }
  }

  /** The leftmost occurrence becomes the mark, what precedes it stays, and the rest is redacted in turn. */
  lemma {:induction false} LeftmostReplaced(before: string, p: string, rest: string)
    requires p != ""
    requires forall i :: 0 <= i < |before| ==> !(p <= (before + p + rest)[i..])
    ensures ReplaceAll(before + p + rest, p, MARK) == before + "[redacted]" + ReplaceAll(rest, p, MARK)
  {
    var s := before + p + rest;
    if before == "" {
      assert At(s, 0, p) && s[|p|..] == rest;
    } else {
      assert s[1..] == before[1..] + p + rest;
      assert forall i :: 0 <= i < |before| - 1 ==> s[1..][i..] == s[i + 1..];
      LeftmostReplaced(before[1..], p, rest);
      AtFront(s, p);
      assert s[0..] == s;
      PlusAssociates([before[0]], before[1..], "[redacted]");
      PlusAssociates([before[0]], before[1..] + "[redacted]", ReplaceAll(rest, p, MARK));
      assert [s[0]] + before[1..] == before;
    }
  }

  /** Later secrets are replaced in what the earlier ones left. */
  lemma {:induction false} OneMoreSecret(line: string, secrets: seq<string>, p: string)
    requires NoneEmpty(secrets) && p != ""
    ensures RedactAll(line, []) == line
    ensures RedactAll(line, secrets + [p]) == ReplaceAll(RedactAll(line, secrets), p, MARK)
    decreases |secrets|
  {
    var all := secrets + [p];
    if secrets == [] {
      assert all == [p] && all[1..] == [];
    } else {
      assert all[0] == secrets[0] && all[1..] == secrets[1..] + [p];
      OneMoreSecret(ReplaceAll(line, secrets[0], MARK), secrets[1..], p);
    }
  }

  /** A line that holds no registered secret stays as it is. */
  lemma {:induction false} CleanLineStays(line: string, secrets: seq<string>)
    requires NoneEmpty(secrets) && forall p :: p in secrets ==> !Contains(line, p)
    ensures RedactAll(line, secrets) == line
    decreases |secrets|
  {
    if secrets != [] {
      NothingReplaced(line, secrets[0]);
      CleanLineStays(line, secrets[1..]);
    }
  }

  lemma {:induction false} RunAtFront(q: string, v: string)
    requires |q| > |v|
    ensures ReplaceAll(q + v, q, MARK) == MARK + v
  {
    assert At(q + v, 0, q) && (q + v)[|q|..] == v;
    NothingReplaced(v, q);
  }

  lemma {:induction false} NoRunYet(u: string, c: char, n: nat, rest: string)
    requires u != "" && n >= |u| && u[|u| - 1] != c
    ensures !At(u + rest, 0, Repeated(c, n))
  {
    if At(u + rest, 0, Repeated(c, n)) {
      CharAt(u + rest, 0, Repeated(c, n), |u| - 1);
    }
  }

  /** u c...c v becomes u MARK v when the run of c is longer than both u and v and u does not end in c. */
  lemma {:induction false} RunReplaced(u: string, c: char, n: nat, v: string)
    requires n > |u| && n > |v| && (u != "" ==> u[|u| - 1] != c)
    ensures ReplaceAll(u + (Repeated(c, n) + v), Repeated(c, n), MARK) == u + (MARK + v)
  {
    var q := Repeated(c, n);
    hide Repeated, At;
    if u == "" {
      assert u + (q + v) == q + v && u + (MARK + v) == MARK + v;
      RunAtFront(q, v);
    } else {
      NoRunYet(u, c, n, q + v);
      RunReplaced(u[1..], c, n, v);
      var s := u + (q + v);
      assert s[1..] == u[1..] + (q + v) && s[0] == u[0];
      assert u == [u[0]] + u[1..];
      PlusAssociates([u[0]], u[1..], MARK + v);
    }
  }

  /** An occurrence in u c...c v whose character number |u| is no c starts behind the run. */
  lemma {:induction false} BehindTheRun(u: string, c: char, n: nat, v: string, p: string, i: int)
    requires At(u + (Repeated(c, n) + v), i, p) && |u| < |p| && p[|u|] != c
    ensures i >= n
  {
    CharAt(u + (Repeated(c, n) + v), i, p, |u|);
  }

  /** The parts of an overlapping secret that stick out of the mark do not spell it around such a run. */
  lemma {:induction false} NotInLine(p: string, d: int, c: char, n: nat)
    requires p != "" && -|MARK| < d < |p| && Agrees(p, d) && c !in MARK && n >= |p| + |MARK|
    ensures !Contains(Left(p, d) + (Repeated(c, n) + Right(p, d)), p)
  {
    var u, v := Left(p, d), Right(p, d);
    assert |u| < |p| && p[|u|] != c by {
      assert p[|u|] == MARK[|u| - d];
    }
    if i :| At(u + (Repeated(c, n) + v), i, p) {
      BehindTheRun(u, c, n, v, p, i);
    }
  }

  function Left(p: string, d: int): string
    requires d <= |p|
  {
    if d > 0 then p[..d] else ""
  }

  function Right(p: string, d: int): string
    requires -|MARK| <= d
  {
    if d + |MARK| < |p| then p[d + |MARK|..] else ""
  }

  lemma {:induction false} MarkedChar(p: string, d: int, k: nat)
    requires -|MARK| < d < |p| && Agrees(p, d) && k < |p|
    ensures var s, i := Left(p, d) + (MARK + Right(p, d)), if d > 0 then 0 else -d;
      i + k < |s| && s[i + k] == p[k]
  {
    if d <= k < d + |MARK| {
      assert p[k] == MARK[k - d];
    }
  }

  lemma {:induction false} InMarked(p: string, d: int)
    requires p != "" && -|MARK| < d < |p| && Agrees(p, d)
    ensures Contains(Left(p, d) + (MARK + Right(p, d)), p)
  {
    var s, i := Left(p, d) + (MARK + Right(p, d)), if d > 0 then 0 else -d;
    forall k | 0 <= k < |p| ensures i + k < |s| && s[i + k] == p[k] {
      MarkedChar(p, d, k);
    }
    MarkedChar(p, d, |p| - 1);
    hide Left, Right, Agrees;
    AtByChars(s, i, p);
  }

  /** The line and the other secret that show p: what sticks out of the mark, around a run of one character. */
  lemma {:induction false} ShownBy(p: string, d: int) returns (line: string, q: string)
    requires |p| >= 4 && -|MARK| < d < |p| && Agrees(p, d)
    ensures |q| >= 4 && q != p && Contains(RedactAll(line, [p, q]), p)
  {
    var u, v := Left(p, d), Right(p, d);
    var c := if u != "" && u[|u| - 1] == '#' then '%' else '#';
    var n := |p| + |MARK|;
    q := Repeated(c, n);
    line := u + (q + v);
    assert c !in MARK;
    NotInLine(p, d, c, n);
    NothingReplaced(line, p);
    RunReplaced(u, c, n, v);
    InMarked(p, d);
    assert [p, q][1..] == [q] && [q][1..] == [];
    assert RedactAll(line, [p, q]) == RedactAll(line, [q]) == u + (MARK + v);
  }

  ghost predicate RemovedFrom(line: string, secrets: seq<string>, p: string) {
    NoneEmpty(secrets) && !Contains(RedactAll(line, secrets), p)
  }

  ghost predicate AlwaysRemoved(p: string) {
    forall line: string, secrets: seq<string> :: Registered(secrets) && p in secrets ==> RemovedFrom(line, secrets, p)
  }

  /** Exactly which secrets are always removed: a secret of a registrable length is nowhere in any redacted line,
      whatever is registered beside it, if and only if it cannot overlap a mark. */
  lemma {:induction false} RemovedExactlyUnlessOverlapping(p: string)
    requires |p| >= 4
    ensures AlwaysRemoved(p) <==> !Overlaps(p)
  {
    if Overlaps(p) {
      var d :| -|MARK| < d < |p| && Agrees(p, d);
      var line, q := ShownBy(p, d);
      assert Registered([p, q]) && p in [p, q];
      assert !RemovedFrom(line, [p, q], p);
    } else {
      forall line: string, secrets: seq<string> | Registered(secrets) && p in secrets
        ensures RemovedFrom(line, secrets, p)
      {
        RedactedIsClean(line, secrets, p);
      }
    }
  }

  lemma {:induction false} SharedChar(p: string, d: int, j: int)
    requires Agrees(p, d) && 0 <= j < |p| && 0 <= j - d < |MARK|
    ensures MARK[j - d] in p
  {
    assert p[j] == MARK[j - d];
  }

  /** Without square brackets the shared characters are inside the mark, and they are the whole secret. */
  lemma {:induction false} SharesInside(p: string, d: int)
    requires '[' !in p && ']' !in p && -|MARK| < d < |p| && Agrees(p, d)
    ensures d < 0 && |p| - d < |MARK|
  {
    var close := |MARK| - 1;
    assert MARK[0] == '[' && MARK[close] == ']';
    if d >= 0 {
      SharedChar(p, d, d);
    } else if close + d < |p| {
      SharedChar(p, d, close + d);
    }
  }

  lemma {:induction false} PartOfInside(p: string, d: int)
    requires p != "" && d < 0 && |p| - d < |MARK|
    ensures Agrees(p, d) <==> At(INSIDE, -d - 1, p)
  {
    assert MARK[1..|MARK| - 1] == INSIDE;
    if At(INSIDE, -d - 1, p) {
      forall k | 0 <= k < |p| ensures p[k] == MARK[k - d] {
        CharAt(INSIDE, -d - 1, p, k);
      }
    } else if Agrees(p, d) {
      AtByChars(INSIDE, -d - 1, p);
    }
  }

  /** A secret without square brackets can overlap a mark only by being a part of "redacted". */
  lemma {:induction false} WithoutBrackets(p: string)
    requires p != "" && '[' !in p && ']' !in p
    ensures Overlaps(p) <==> Contains(INSIDE, p)
  {
    hide Agrees;
    if d :| -|MARK| < d < |p| && Agrees(p, d) {
      SharesInside(p, d);
      PartOfInside(p, d);
    }
    if i :| At(INSIDE, i, p) {
      PartOfInside(p, -i - 1);
    }
  }
}
