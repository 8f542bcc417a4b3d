/** The history window of chat/loop.ts: the newest messages that fit a token budget, opening on a user turn. */
module ChatWindow {

  /** A message's role and its text: the string itself, or the JSON of its content blocks. */
  datatype Message = Message(role: string, text: string)

  /** ceil(length / 3.5) */
  function EstimateTokens(m: Message): (tokens: nat)
    ensures tokens as real >= |m.text| as real / 3.5 > tokens as real - 1.0
  {
    (2 * |m.text| + 6) / 7
  }

  function Total(messages: seq<Message>): nat {
    if messages == [] then 0 else EstimateTokens(messages[0]) + Total(messages[1..])
  }

  function Reversed(messages: seq<Message>): seq<Message> {
    if messages == [] then [] else Reversed(messages[1..]) + [messages[0]]
  }

  /** The window is the longest one that fits, or the newest message alone when even that does not. */
  ghost predicate IsWindow(history: seq<Message>, budget: int, kept: seq<Message>) {
    var from := |history| - |kept|;
    && from >= 0 && kept == history[from..]
    && (history != [] ==> kept != [])
    && (Total(kept) <= budget || |kept| <= 1)
    && (from > 0 ==> Total(history[from - 1..]) > budget)
  }

  lemma {:induction false} TotalsShrink(history: seq<Message>, i: nat, j: nat)
    requires i <= j <= |history|
    ensures Total(history[j..]) <= Total(history[i..])
    decreases j - i
  {
    if i < j {
      TotalsShrink(history, i + 1, j);
      assert history[i..][1..] == history[i + 1..];
    }
  }

  /** Any two windows of one history are the same: the description leaves no choice. */
  lemma {:induction false} WindowIsUnique(history: seq<Message>, budget: int, a: seq<Message>, b: seq<Message>)
    requires IsWindow(history, budget, a) && IsWindow(history, budget, b)
    ensures a == b
  {
    var i, j := |history| - |a|, |history| - |b|;
    if i < j {
      TotalsShrink(history, i, j - 1);
    } else if j < i {
      TotalsShrink(history, j, i - 1);
    }
  }

  lemma {:induction false} ReversedSnoc(messages: seq<Message>, i: nat)
    requires i < |messages|
    ensures Reversed(messages[i..]) == Reversed(messages[i + 1..]) + [messages[i]]
    ensures Total(messages[i..]) == EstimateTokens(messages[i]) + Total(messages[i + 1..])
  {
    assert messages[i..][1..] == messages[i + 1..];
  }

  lemma {:induction false} ReversedAppend(a: seq<Message>, m: Message)
    ensures Reversed(a + [m]) == [m] + Reversed(a)
  {
    if a == [] {
      assert [m][1..] == [];
    } else {
      assert (a + [m])[1..] == a[1..] + [m];
      ReversedAppend(a[1..], m);
    }
  }

  lemma {:induction false} ReversedTwice(a: seq<Message>)
    ensures Reversed(Reversed(a)) == a
  {
    if a != [] {
      ReversedAppend(Reversed(a[1..]), a[0]);
      ReversedTwice(a[1..]);
    }
  }

  method TrimToTokenBudget(history: seq<Message>, budget: int) returns (result: seq<Message>)
    ensures IsWindow(history, budget, result)
  {
    assert history[|history|..] == [] && Reversed([]) == [] && Total([]) == 0;
    hide Reversed, Total;
    var kept: seq<Message> := [];
    var total := 0;
    var i := |history| - 1;
    while i >= 0
      invariant -1 <= i < |history|
      invariant kept == Reversed(history[i + 1..]) && total == Total(history[i + 1..])
      invariant kept == [] <==> i == |history| - 1
      invariant total <= budget || |history| - i <= 2
      decreases i
    {
      ReversedSnoc(history, i);
      var m := history[i];
      var t := EstimateTokens(m);
      if kept != [] && total + t > budget {
        break;
      }
      total := total + t;
      kept := kept + [m];
      i := i - 1;
    }
    ReversedTwice(history[i + 1..]);
    result := Reversed(kept);
    assert |history| - |result| == i + 1;
  }

  /** Drops every message before the first user turn, and only those. */
  method DropLeadingAssistant(history: seq<Message>) returns (result: seq<Message>)
    ensures exists i ::
      0 <= i <= |history| && result == history[i..] && forall j :: 0 <= j < i ==> history[j].role != "user"
    ensures result != [] ==> result[0].role == "user"
  {
    var i := 0;
    while i < |history| && history[i].role != "user"
      invariant i <= |history| && forall j :: 0 <= j < i ==> history[j].role != "user"
    {
      i := i + 1;
    }
    return history[i..];
  }
}
