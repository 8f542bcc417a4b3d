/** The console's shared terminals: bounded replay (console/limit-queue.ts) and live broadcast
    (console/terminal.ts). */
module Terminal {
  import opened Text

  // ---- the bounded queue ----

  /** The last n chunks. A negative limit holds nothing, like 0. */
  function LastOf<T>(items: seq<T>, limit: int): seq<T> {
    if |items| <= limit then items else items[|items| - Max(limit, 0)..]
  }

  /** Appending one item, evicting the oldest past the limit. */
  function Pushed<T>(items: seq<T>, item: T, limit: int): seq<T> {
    var longer := items + [item];
    if |longer| > limit then longer[1..] else longer
  }

  class LimitQueue<T> {
    const limit: int
    var items: seq<T>

    constructor (limit: int)
      ensures this.limit == limit && items == []
    {
      this.limit := limit;
      items := [];
    }

    method Push(item: T)
      modifies this
      ensures items == Pushed(old(items), item, limit)
    {
      items := items + [item];
      if |items| > limit {
        items := items[1..];
      }
    }
  }

  /** Push on a queue that holds the last items of a stream holds the last items of the longer stream. */
  lemma {:induction false} PushKeepsTail<T>(items: seq<T>, item: T, limit: int)
    ensures Pushed(LastOf(items, limit), item, limit) == LastOf(items + [item], limit)
  {
    if |items| > limit && limit > 0 {
      assert (items[|items| - limit..] + [item])[1..] == (items + [item])[|items| + 1 - limit..];
    }
  }

  // ---- one terminal ----

  /** A terminal: every chunk it has put out, its clients in join order, and what each client id was sent since
      its last join. */
  datatype Pty = Pty(output: seq<string>, buffer: seq<string>, clients: seq<string>, received: map<string, seq<string>>)

  datatype Event =
    | Output(chunk: string)
    | Join(client: string)
    | Leave(client: string)
    | Exit

  const FRESH := Pty([], [], [], map[])

  function Sent(received: map<string, seq<string>>, client: string, chunks: seq<string>): map<string, seq<string>> {
    received[client := (if client in received then received[client] else []) + chunks]
  }

  function Broadcast(received: map<string, seq<string>>, clients: seq<string>, chunk: string): map<string, seq<string>>
    decreases |clients|
  {
    if clients == [] then received else Broadcast(Sent(received, clients[0], [chunk]), clients[1..], chunk)
  }

  function Removed(clients: seq<string>, client: string): seq<string> {
    if clients == [] then []
    else if clients[0] == client then Removed(clients[1..], client)
    else [clients[0]] + Removed(clients[1..], client)
  }

  /** Map.set keeps the place of a key it already has. */
  function Added(clients: seq<string>, client: string): seq<string> {
    if client in clients then clients else clients + [client]
  }

  function After(t: Pty, e: Event, limit: int): Pty {
    match e
    case Output(chunk) =>
      t.(output := t.output + [chunk], buffer := Pushed(t.buffer, chunk, limit),
         received := Broadcast(t.received, t.clients, chunk))
    case Join(client) => t.(clients := Added(t.clients, client), received := Sent(t.received, client, t.buffer))
    case Leave(client) => t.(clients := Removed(t.clients, client))
    case Exit => t.(clients := [])
  }

  function AfterAll(t: Pty, events: seq<Event>, limit: int): Pty
    decreases |events|
  {
    if events == [] then t else AfterAll(After(t, events[0], limit), events[1..], limit)
  }

  /** What terminal.ts keeps per terminal. `received` records the calls of each client's onData. */
  class Session {
    const name: string
    const buffer: LimitQueue<string>
    var output: seq<string>
    var clients: seq<string>
    var received: map<string, seq<string>>

    constructor (name: string, limit: int)
      ensures this.name == name && buffer.limit == limit && fresh(buffer) && State() == FRESH
    {
      this.name := name;
      buffer := new LimitQueue(limit);
      output, clients, received := [], [], map[];
    }

    function State(): Pty
      reads this, buffer
    {
      Pty(output, buffer.items, clients, received)
    }

    method OnData(chunk: string)
      modifies this, buffer
      ensures State() == After(old(State()), Output(chunk), buffer.limit)
    {
      output := output + [chunk];
      buffer.Push(chunk);
      var i := 0;
      while i < |clients|
        invariant i <= |clients| && clients == old(clients) && output == old(output) + [chunk]
        invariant buffer.items == Pushed(old(buffer.items), chunk, buffer.limit)
        invariant Broadcast(received, clients[i..], chunk) == Broadcast(old(received), clients, chunk)
      {
        assert clients[i..][1..] == clients[i + 1..];
        received := Sent(received, clients[i], [chunk]);
        i := i + 1;
      }
    }

    method Join(client: string)
      modifies this
      ensures State() == After(old(State()), Event.Join(client), buffer.limit)
    {
      if client !in clients {
        clients := clients + [client];
      }
      received := Sent(received, client, []);
      var chunks := buffer.items;
      var i := 0;
      while i < |chunks|
        invariant i <= |chunks| && chunks == buffer.items == old(buffer.items)
        invariant output == old(output) && clients == Added(old(clients), client)
        invariant received == Sent(old(received), client, chunks[..i])
      {
        received := Sent(received, client, [chunks[i]]);
        SentTwice(old(received), client, chunks[..i], [chunks[i]]);
        assert chunks[..i + 1] == chunks[..i] + [chunks[i]];
        i := i + 1;
      }
      assert chunks[..i] == chunks;
    }

    method Leave(client: string)
      modifies this`clients
      ensures State() == After(old(State()), Event.Leave(client), buffer.limit)
    {
      clients := Removed(clients, client);
    }

    method OnExit()
      modifies this`clients
      ensures State() == After(old(State()), Exit, buffer.limit)
    {
      clients := [];
    }
  }

  lemma {:induction false} SentTwice(received: map<string, seq<string>>, client: string, a: seq<string>, b: seq<string>)
    ensures Sent(Sent(received, client, a), client, b) == Sent(received, client, a + b)
  {
    var before := if client in received then received[client] else [];
    PlusAssociates(before, a, b);
  }

  /** The registry of live terminals. */
  class Registry {
    const limit: int
    var terminals: map<string, Session>
    ghost var live: set<Session>

    /** The map holds the live terminals, each under its own name: so at most one per name. */
    ghost predicate Valid()
      reads this, live
    {
      && (forall t :: t in live ==> t.name in terminals && terminals[t.name] == t)
      && (forall name :: name in terminals ==> terminals[name] in live && terminals[name].name == name)
    }

    constructor (limit: int)
      ensures Valid() && live == {} && this.limit == limit
    {
      this.limit := limit;
      terminals, live := map[], {};
    }

    method Open(name: string) returns (t: Session)
      requires Valid()
      modifies this
      ensures Valid() && t in live && t.name == name
      ensures forall s :: s in live && s.name == name ==> s == t
      ensures if name in old(terminals) then t == old(terminals[name]) && live == old(live)
              else fresh(t) && t.State() == FRESH && live == old(live) + {t}
    {
      if name in terminals {
        return terminals[name];
      }
      t := new Session(name, limit);
      terminals := terminals[name := t];
      live := live + {t};
    }

    /** The pty's exit, of a terminal that has not exited before. */
    method Exited(t: Session)
      requires Valid() && t in live
      modifies this, t
      ensures Valid() && live == old(live) - {t} && t.State() == After(old(t.State()), Exit, t.buffer.limit)
      ensures t.name !in terminals
    {
      t.OnExit();
      terminals := terminals - {t.name};
      live := live - {t};
    }
  }

  // ---- continuity ----

  function Outputs(events: seq<Event>): seq<string> {
    if events == [] then []
    else Outputs(events[..|events| - 1]) + if events[|events| - 1].Output? then [events[|events| - 1].chunk] else []
  }

  /** The chunks from here until the client leaves or the terminal exits. */
  function Live(events: seq<Event>, client: string): seq<string>
    decreases |events|
  {
    if events == [] || events[0] == Exit || events[0] == Leave(client) then []
    else (if events[0].Output? then [events[0].chunk] else []) + Live(events[1..], client)
  }

  ghost predicate NoJoin(events: seq<Event>, client: string) {
    forall i :: 0 <= i < |events| ==> events[i] != Join(client)
  }

  function Occurrences(clients: seq<string>, client: string): nat {
    if clients == [] then 0 else (if clients[0] == client then 1 else 0) + Occurrences(clients[1..], client)
  }

  lemma {:induction false} OccursWhenIn(clients: seq<string>, client: string)
    ensures client in clients <==> Occurrences(clients, client) > 0
  {
    if clients != [] {
      OccursWhenIn(clients[1..], client);
      assert clients == [clients[0]] + clients[1..];
    }
  }

  lemma {:induction false} OccursAfterAdd(clients: seq<string>, other: string, client: string)
    ensures Occurrences(clients + [other], client) == Occurrences(clients, client) + if other == client then 1 else 0
  {
    if clients == [] {
      assert [other][1..] == [];
    } else {
      OccursAfterAdd(clients[1..], other, client);
      assert (clients + [other])[1..] == clients[1..] + [other];
    }
  }

  lemma {:induction false} OccursAfterRemove(clients: seq<string>, other: string, client: string)
    ensures Occurrences(Removed(clients, other), client) == if other == client then 0 else Occurrences(clients, client)
  {
    if clients != [] {
      OccursAfterRemove(clients[1..], other, client);
      if clients[0] != other {
        assert ([clients[0]] + Removed(clients[1..], other))[1..] == Removed(clients[1..], other);
      }
    }
  }

  function Got(received: map<string, seq<string>>, client: string): seq<string> {
    if client in received then received[client] else []
  }

  lemma {:induction false} BroadcastReaches(received: map<string, seq<string>>, clients: seq<string>, chunk: string,
                                            client: string)
    requires Occurrences(clients, client) <= 1
    ensures Got(Broadcast(received, clients, chunk), client)
         == if Occurrences(clients, client) == 1 then Got(received, client) + [chunk] else Got(received, client)
    decreases |clients|
  {
    if clients != [] {
      BroadcastReaches(Sent(received, clients[0], [chunk]), clients[1..], chunk, client);
    }
  }

  lemma {:induction false} OnceStays(t: Pty, e: Event, limit: int, client: string)
    requires Occurrences(t.clients, client) <= 1
    ensures Occurrences(After(t, e, limit).clients, client) <= 1
    ensures client !in t.clients && e != Join(client) ==>
      client !in After(t, e, limit).clients && Got(After(t, e, limit).received, client) == Got(t.received, client)
  {
    OccursWhenIn(t.clients, client);
    OccursWhenIn(After(t, e, limit).clients, client);
    match e
    case Output(chunk) => BroadcastReaches(t.received, t.clients, chunk, client);
    case Join(other) => OccursAfterAdd(t.clients, other, client);
    case Leave(other) => OccursAfterRemove(t.clients, other, client);
    case Exit =>
  }

  /** A client that is not connected is sent nothing. */
  lemma {:induction false} AbsentGetsNothing(t: Pty, events: seq<Event>, limit: int, client: string)
    requires client !in t.clients && NoJoin(events, client)
    ensures client !in AfterAll(t, events, limit).clients
    ensures Got(AfterAll(t, events, limit).received, client) == Got(t.received, client)
    decreases |events|
  {
    if events != [] {
      OccursWhenIn(t.clients, client);
      OnceStays(t, events[0], limit, client);
      AbsentGetsNothing(After(t, events[0], limit), events[1..], limit, client);
    }
  }

  /** A connected client is sent every chunk until it leaves or the terminal exits. */
  lemma {:induction false} PresentGetsLive(t: Pty, events: seq<Event>, limit: int, client: string)
    requires Occurrences(t.clients, client) == 1 && NoJoin(events, client)
    ensures Got(AfterAll(t, events, limit).received, client) == Got(t.received, client) + Live(events, client)
    decreases |events|
  {
    if events != [] {
      hide Got, Occurrences;
      var e, next := events[0], After(t, events[0], limit);
      OnceStays(t, e, limit, client);
      OccursWhenIn(next.clients, client);
      if e == Exit || e == Leave(client) {
        OccursAfterRemove(t.clients, client, client);
        AbsentGetsNothing(next, events[1..], limit, client);
      } else {
        PresentStep(t, e, limit, client);
        PresentGetsLive(next, events[1..], limit, client);
        if e.Output? {
          PlusAssociates(Got(t.received, client), [e.chunk], Live(events[1..], client));
        }
      }
    }
  }

  lemma {:induction false} PresentStep(t: Pty, e: Event, limit: int, client: string)
    requires Occurrences(t.clients, client) == 1 && e != Exit && e != Leave(client) && e != Join(client)
    ensures Occurrences(After(t, e, limit).clients, client) == 1
    ensures Got(After(t, e, limit).received, client)
         == if e.Output? then Got(t.received, client) + [e.chunk] else Got(t.received, client)
  {
    match e
    case Output(chunk) => BroadcastReaches(t.received, t.clients, chunk, client);
    case Join(other) => OccursAfterAdd(t.clients, other, client);
    case Leave(other) => OccursAfterRemove(t.clients, other, client);
    case Exit =>
  }

  lemma {:induction false} AfterSnoc(t: Pty, events: seq<Event>, e: Event, limit: int)
    ensures AfterAll(t, events + [e], limit) == After(AfterAll(t, events, limit), e, limit)
    decreases |events|
  {
    if events == [] {
      assert [e][1..] == [];
    } else {
      AfterSnoc(After(t, events[0], limit), events[1..], e, limit);
      assert (events + [e])[1..] == events[1..] + [e];
    }
  }

  lemma {:induction false} AfterAppend(t: Pty, a: seq<Event>, b: seq<Event>, limit: int)
    ensures AfterAll(t, a + b, limit) == AfterAll(AfterAll(t, a, limit), b, limit)
    decreases |a|
  {
    if a == [] {
      assert a + b == b;
    } else {
      AfterAppend(After(t, a[0], limit), a[1..], b, limit);
      assert (a + b)[1..] == a[1..] + b;
    }
  }

  /** The buffer is always the last chunks put out. */
  lemma {:induction false} BufferIsTail(events: seq<Event>, limit: int)
    ensures AfterAll(FRESH, events, limit).output == Outputs(events)
    ensures AfterAll(FRESH, events, limit).buffer == LastOf(Outputs(events), limit)
  {
    hide Broadcast, Added, Removed, Sent;
    if events != [] {
      hide LastOf, Pushed;
      var n := |events| - 1;
      BufferIsTail(events[..n], limit);
      AfterSnoc(FRESH, events[..n], events[n], limit);
      if events[n].Output? {
        PushKeepsTail(Outputs(events[..n]), events[n].chunk, limit);
      }
      assert events == events[..n] + [events[n]];
    }
  }

  lemma {:induction false} JoinReplays(t: Pty, client: string, limit: int)
    requires client !in t.clients && Got(t.received, client) == []
    ensures Occurrences(After(t, Join(client), limit).clients, client) == 1
    ensures Got(After(t, Join(client), limit).received, client) == t.buffer
  {
    OccursWhenIn(t.clients, client);
    OccursAfterAdd(t.clients, client, client);
    assert [] + t.buffer == t.buffer;
  }

  /** Continuity: a client that joins once is sent the last `limit` chunks put out before its join, then every
      chunk until it left or the terminal exited. */
  lemma {:induction false} ClientGetsWindow(before: seq<Event>, client: string, later: seq<Event>, limit: int)
    requires NoJoin(before, client) && NoJoin(later, client)
    ensures Got(AfterAll(FRESH, before + [Join(client)] + later, limit).received, client)
         == LastOf(Outputs(before), limit) + Live(later, client)
  {
    var t := AfterAll(FRESH, before, limit);
    BufferIsTail(before, limit);
    AbsentGetsNothing(FRESH, before, limit, client);
    AfterSnoc(FRESH, before, Join(client), limit);
    AfterAppend(FRESH, before + [Join(client)], later, limit);
    JoinReplays(t, client, limit);
    PresentGetsLive(After(t, Join(client), limit), later, limit, client);
  }

  lemma {:induction false} OutputsAppend(a: seq<Event>, b: seq<Event>)
    ensures Outputs(a + b) == Outputs(a) + Outputs(b)
  {
    if b == [] {
      assert a + b == a;
    } else {
      OutputsAppend(a, b[..|b| - 1]);
      assert (a + b)[..|a + b| - 1] == a + b[..|b| - 1];
    }
  }

  lemma {:induction false} LiveIsPrefix(events: seq<Event>, client: string)
    ensures Live(events, client) <= Outputs(events)
    decreases |events|
  {
    if events != [] {
      LiveIsPrefix(events[1..], client);
      OutputsAppend([events[0]], events[1..]);
      assert [events[0]] + events[1..] == events && [events[0]][..0] == [];
    }
  }

  lemma {:induction false} WindowSlice(earlier: seq<string>, later: seq<string>, live: seq<string>, limit: int)
    requires live <= later
    ensures exists a, b | 0 <= a <= b <= |earlier + later| :: LastOf(earlier, limit) + live == (earlier + later)[a..b]
  {
    var a := if |earlier| <= limit then 0 else |earlier| - Max(limit, 0);
    assert LastOf(earlier, limit) == earlier[a..];
    assert earlier[a..] + live == (earlier + later)[a..|earlier| + |live|];
  }

  /** So what it was sent is one contiguous window of the terminal's output: no gap, no duplicate. */
  lemma {:induction false} WindowIsContiguous(before: seq<Event>, client: string, later: seq<Event>, limit: int)
    requires NoJoin(before, client) && NoJoin(later, client)
    ensures var all := Outputs(before + [Join(client)] + later);
      exists a, b | 0 <= a <= b <= |all| ::
        Got(AfterAll(FRESH, before + [Join(client)] + later, limit).received, client) == all[a..b]
  {
    ClientGetsWindow(before, client, later, limit);
    OutputsAppend(before + [Join(client)], later);
    assert (before + [Join(client)])[..|before|] == before;
    assert Outputs(before) + [] == Outputs(before);
    LiveIsPrefix(later, client);
    WindowSlice(Outputs(before), Outputs(later), Live(later, client), limit);
  }
}