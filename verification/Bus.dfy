/** The in-process bus (realtime/bus.ts) and its NOTIFY bridge between processes (realtime/pg-bridge.ts 59-81).
    A NOTIFY that commits is delivered once to every process, the sender included, in commit order; each
    process sends on one connection, so its own NOTIFYs complete in publish order. */
module Bus {
  import opened Text
  import opened Json
  import opened BusCodec

  /** An emitter event name: `log:<id>` or `status:<id>`. */
  datatype Topic = Topic(isLog: bool, deploymentId: Value)

  datatype Sub = Sub(id: nat, topic: Topic)

  datatype Delivery = Delivery(to: Sub, item: Heard)

  function TopicOf(h: Heard): Topic {
    match h
    case HeardLog(id, _) => Topic(true, id)
    case HeardStatus(id, _) => Topic(false, id)
  }

  /** The emitter's listeners in order, the calls it made, and the events it forwarded. */
  datatype BusState = BusState(forwarding: bool, listeners: seq<Sub>, delivered: seq<Delivery>,
                               forwarded: seq<BusEvent>)

  /** One call of each listener of the topic, in order. */
  function Fanout(listeners: seq<Sub>, h: Heard): seq<Delivery> {
    if listeners == [] then []
    else (if listeners[0].topic == TopicOf(h) then [Delivery(listeners[0], h)] else []) + Fanout(listeners[1..], h)
  }

  /** The item is of the listener's kind, a log or a status, and of its deployment. */
  predicate IsFor(h: Heard, t: Topic) {
    h.HeardLog? == t.isLog && h.deploymentId == t.deploymentId
  }

  /** One call of each listener to logs, or to statuses, of a deployment, in order. */
  function CallsTo(listeners: seq<Sub>, isLog: bool, deploymentId: Value, h: Heard): seq<Delivery> {
    if listeners == [] then []
    else if listeners[0].topic.isLog == isLog && listeners[0].topic.deploymentId == deploymentId then
      [Delivery(listeners[0], h)] + CallsTo(listeners[1..], isLog, deploymentId, h)
    else CallsTo(listeners[1..], isLog, deploymentId, h)
  }

  /** An item is for the listeners of its own kind and deployment, and for no others. */
  lemma {:induction false} FanoutIs(listeners: seq<Sub>, h: Heard)
    ensures h.HeardLog? ==> Fanout(listeners, h) == CallsTo(listeners, true, h.deploymentId, h)
    ensures h.HeardStatus? ==> Fanout(listeners, h) == CallsTo(listeners, false, h.deploymentId, h)
  {
    if listeners != [] {
      FanoutIs(listeners[1..], h);
    }
  }

  function Emitted(b: BusState, h: Heard): BusState {
    b.(delivered := b.delivered + Fanout(b.listeners, h))
  }

  function Published(b: BusState, e: BusEvent): BusState {
    var local := Emitted(b, HeardOf(e));
    if b.forwarding then local.(forwarded := local.forwarded + [e]) else local
  }

  /** emitter.off: the last listener equal to s. */
  function Without(listeners: seq<Sub>, s: Sub): seq<Sub> {
    if listeners == [] then []
    else if listeners[|listeners| - 1] == s then listeners[..|listeners| - 1]
    else Without(listeners[..|listeners| - 1], s) + [listeners[|listeners| - 1]]
  }

  class LogBus {
    var forwarding: bool
    var listeners: seq<Sub>
    var delivered: seq<Delivery>
    var forwarded: seq<BusEvent>

    constructor ()
      ensures State() == BusState(false, [], [], [])
    {
      forwarding, listeners, delivered, forwarded := false, [], [], [];
    }

    function State(): BusState
      reads this
    {
      BusState(forwarding, listeners, delivered, forwarded)
    }

    method SetForwarder(attached: bool)
      modifies this`forwarding
      ensures State() == old(State()).(forwarding := attached)
    {
      forwarding := attached;
    }

    method Emit(h: Heard)
      modifies this`delivered
      ensures State() == Emitted(old(State()), h)
    {
      var i := 0;
      while i < |listeners|
        invariant i <= |listeners|
        invariant delivered + Fanout(listeners[i..], h) == old(delivered) + Fanout(listeners, h)
      {
        assert listeners[i..][1..] == listeners[i + 1..];
        if listeners[i].topic == TopicOf(h) {
          PlusAssociates(delivered, [Delivery(listeners[i], h)], Fanout(listeners[i + 1..], h));
          delivered := delivered + [Delivery(listeners[i], h)];
        }
        i := i + 1;
      }
    }

    method PublishLog(deploymentId: string, frame: LogFrame)
      modifies this`delivered, this`forwarded
      ensures State() == Published(old(State()), LogEvent(deploymentId, frame))
      ensures var id := String(deploymentId);
        delivered == old(delivered) + CallsTo(listeners, true, id, HeardLog(id, FrameJson(frame)))
      ensures forwarded == old(forwarded) + if forwarding then [LogEvent(deploymentId, frame)] else []
    {
      FanoutIs(listeners, HeardLog(String(deploymentId), FrameJson(frame)));
      Emit(HeardLog(String(deploymentId), FrameJson(frame)));
      if forwarding {
        forwarded := forwarded + [LogEvent(deploymentId, frame)];
      }
    }

    method PublishStatus(deploymentId: string, status: string)
      modifies this`delivered, this`forwarded
      ensures State() == Published(old(State()), StatusEvent(deploymentId, status))
      ensures var id := String(deploymentId);
        delivered == old(delivered) + CallsTo(listeners, false, id, HeardStatus(id, String(status)))
      ensures forwarded == old(forwarded) + if forwarding then [StatusEvent(deploymentId, status)] else []
    {
      FanoutIs(listeners, HeardStatus(String(deploymentId), String(status)));
      Emit(HeardStatus(String(deploymentId), String(status)));
      if forwarding {
        forwarded := forwarded + [StatusEvent(deploymentId, status)];
      }
    }

    /** injectRemote and injectRemoteStatus: emit only. */
    method InjectRemote(h: Heard)
      modifies this`delivered
      ensures State() == Emitted(old(State()), h)
      ensures delivered == old(delivered) + CallsTo(listeners, h.HeardLog?, h.deploymentId, h)
    {
      FanoutIs(listeners, h);
      Emit(h);
    }

    /** onLog. */
    method OnLog(id: nat, deploymentId: string)
      modifies this`listeners
      ensures State() == old(State()).(listeners := old(listeners) + [Sub(id, Topic(true, String(deploymentId)))])
    {
      listeners := listeners + [Sub(id, Topic(true, String(deploymentId)))];
    }

    /** onStatus. */
    method OnStatus(id: nat, deploymentId: string)
      modifies this`listeners
      ensures State() == old(State()).(listeners := old(listeners) + [Sub(id, Topic(false, String(deploymentId)))])
    {
      listeners := listeners + [Sub(id, Topic(false, String(deploymentId)))];
    }

    /** The function that onLog and onStatus return. */
    method Off(s: Sub)
      modifies this`listeners
      ensures State() == old(State()).(listeners := Without(old(listeners), s))
    {
      var i := |listeners|;
      assert listeners[..i] == listeners && listeners[i..] == [];
      while i > 0 && listeners[i - 1] != s
        invariant 0 <= i <= |listeners| && listeners == old(listeners)
        invariant Without(listeners, s) == Without(listeners[..i], s) + listeners[i..]
      {
        assert listeners[..i][..i - 1] == listeners[..i - 1];
        PlusAssociates(Without(listeners[..i - 1], s), [listeners[i - 1]], listeners[i..]);
        assert [listeners[i - 1]] + listeners[i..] == listeners[i - 1..];
        i := i - 1;
      }
      if i > 0 {
        assert listeners[..i][..i - 1] == listeners[..i - 1];
        listeners := listeners[..i - 1] + listeners[i..];
      } else {
        assert listeners[..i] == [] && listeners[i..] == listeners;
      }
    }
  }

  /** The listener of the channel: decode, then inject. */
  method OnNotify(bus: LogBus, payload: string, origin: string)
    modifies bus`delivered
    ensures bus.State() == match DecodeBusEvent(payload, origin)
                           case None => old(bus.State())
                           case Some(h) => Emitted(old(bus.State()), h)
  {
    var event := DecodeBusEvent(payload, origin);
    if event.Some? {
      bus.InjectRemote(event.value);
    }
  }

  // ---- processes on one channel ----

  /** A NOTIFY: who sent it, what for, and its payload. Receivers see the payload only. */
  datatype Note = Note(source: nat, event: BusEvent, payload: string)

  /** Something a process emitted to its listeners, and the process it came from. */
  datatype Emission = Emission(source: nat, item: Heard)

  /** A process with its bridge up: NOTIFYs not yet completed, how far it has read the channel, how many of
      its NOTIFYs failed; `published` and `emitted` record what it did. */
  datatype Proc = Proc(bus: BusState, outbox: seq<Note>, cursor: nat, lost: nat,
                       published: seq<BusEvent>, emitted: seq<Emission>)

  /** Processes, each with its random origin, on one channel. */
  datatype Network = Network(origins: seq<string>, procs: seq<Proc>, channel: seq<Note>)

  datatype Action =
    | Subscribe(p: nat, s: Sub)
    | Unsubscribe(p: nat, s: Sub)
    | Publish(p: nat, e: BusEvent)
    | Complete(p: nat, ok: bool)
    | Deliver(p: nat)

  predicate Enabled(net: Network, a: Action) {
    && a.p < |net.procs| == |net.origins|
    && match a
       case Complete(p, _) => net.procs[p].outbox != []
       case Deliver(p) => net.procs[p].cursor < |net.channel|
       case _ => true
  }

  function AfterPublish(proc: Proc, p: nat, e: BusEvent, origin: string): Proc {
    proc.(bus := Published(proc.bus, e),
          outbox := if proc.bus.forwarding then proc.outbox + [Note(p, e, EncodeBusEvent(e, origin))] else proc.outbox,
          published := proc.published + [e],
          emitted := proc.emitted + [Emission(p, HeardOf(e))])
  }

  function AfterDeliver(proc: Proc, note: Note, origin: string): Proc {
    match DecodeBusEvent(note.payload, origin)
    case None => proc.(cursor := proc.cursor + 1)
    case Some(h) => proc.(cursor := proc.cursor + 1, bus := Emitted(proc.bus, h),
                          emitted := proc.emitted + [Emission(note.source, h)])
  }

  /** The acting process after the action. */
  function ActorAfter(net: Network, a: Action): Proc
    requires Enabled(net, a)
  {
    var proc := net.procs[a.p];
    match a
    case Subscribe(_, s) => proc.(bus := proc.bus.(listeners := proc.bus.listeners + [s]))
    case Unsubscribe(_, s) => proc.(bus := proc.bus.(listeners := Without(proc.bus.listeners, s)))
    case Publish(p, e) => AfterPublish(proc, p, e, net.origins[p])
    case Complete(_, ok) => proc.(outbox := proc.outbox[1..], lost := proc.lost + if ok then 0 else 1)
    case Deliver(p) => AfterDeliver(proc, net.channel[proc.cursor], net.origins[p])
  }

  function After(net: Network, a: Action): Network
    requires Enabled(net, a)
  {
    net.(procs := net.procs[a.p := ActorAfter(net, a)],
         channel := if a.Complete? && a.ok then net.channel + [net.procs[a.p].outbox[0]] else net.channel)
  }

  ghost predicate IsRun(net: Network, actions: seq<Action>)
    decreases |actions|
  {
    actions == [] || (Enabled(net, actions[0]) && IsRun(After(net, actions[0]), actions[1..]))
  }

  function AfterRun(net: Network, actions: seq<Action>): Network
    requires IsRun(net, actions)
    decreases |actions|
  {
    if actions == [] then net else AfterRun(After(net, actions[0]), actions[1..])
  }

  // ---- what a run keeps ----

  /** The events of the notes of one process. */
  function EventsFrom(notes: seq<Note>, p: nat): seq<BusEvent> {
    if notes == [] then []
    else EventsFrom(notes[..|notes| - 1], p) + if notes[|notes| - 1].source == p then [notes[|notes| - 1].event] else []
  }

  /** The items a process emitted that came from p. */
  function ItemsFrom(emitted: seq<Emission>, p: nat): seq<Heard> {
    if emitted == [] then []
    else
      ItemsFrom(emitted[..|emitted| - 1], p)
      + if emitted[|emitted| - 1].source == p then [emitted[|emitted| - 1].item] else []
  }

  function Local(events: seq<BusEvent>): seq<Heard> {
    if events == [] then [] else Local(events[..|events| - 1]) + [HeardOf(events[|events| - 1])]
  }

  /** What events look like to another process: those with an empty id or status do not arrive. */
  function Remote(events: seq<BusEvent>, origin: string): seq<Heard> {
    if events == [] then []
    else
      var e := events[|events| - 1];
      Remote(events[..|events| - 1], origin) + if Sendable(e) then [HeardOf(Shortened(e, origin))] else []
  }

  ghost predicate Distinct(origins: seq<string>) {
    "" !in origins && forall p, q :: 0 <= p < q < |origins| ==> origins[p] != origins[q]
  }

  ghost predicate GenuineNote(origins: seq<string>, n: Note) {
    n.source < |origins| && n.payload == EncodeBusEvent(n.event, origins[n.source])
  }

  ghost predicate Genuine(origins: seq<string>, notes: seq<Note>) {
    forall i :: 0 <= i < |notes| ==> GenuineNote(origins, notes[i])
  }

  ghost predicate OwnNotes(notes: seq<Note>, p: nat) {
    forall i :: 0 <= i < |notes| ==> notes[i].source == p
  }

  ghost predicate ProcValid(origins: seq<string>, channel: nat, p: nat, proc: Proc) {
    proc.bus.forwarding && proc.cursor <= channel && Genuine(origins, proc.outbox) && OwnNotes(proc.outbox, p)
  }

  ghost predicate Valid(net: Network) {
    && |net.procs| == |net.origins| && Distinct(net.origins) && Genuine(net.origins, net.channel)
    && forall p :: 0 <= p < |net.procs| ==> ProcValid(net.origins, |net.channel|, p, net.procs[p])
  }

  /** What process q has emitted of process p so far: all of its own publishes, and of another process's
      the NOTIFYs it has read. */
  ghost predicate Heeds(net: Network, p: nat, q: nat)
    requires Valid(net) && p < |net.procs| && q < |net.procs|
  {
    ItemsFrom(net.procs[q].emitted, p)
    == if p == q then Local(net.procs[p].published)
       else Remote(EventsFrom(net.channel[..net.procs[q].cursor], p), net.origins[p])
  }

  /** Every publish is one NOTIFY: completed, pending or failed. */
  ghost predicate Accounts(channel: seq<Note>, proc: Proc, p: nat) {
    && |EventsFrom(channel, p)| + |proc.outbox| + proc.lost == |proc.published|
    && (proc.lost == 0 ==> EventsFrom(channel, p) + EventsFrom(proc.outbox, p) == proc.published)
  }

  lemma {:induction false} EventsSnoc(notes: seq<Note>, n: Note, p: nat)
    ensures EventsFrom(notes + [n], p)
         == if n.source == p then EventsFrom(notes, p) + [n.event] else EventsFrom(notes, p)
  {
    assert (notes + [n])[..|notes|] == notes;
  }

  lemma {:induction false} ItemsSnoc(emitted: seq<Emission>, e: Emission, p: nat)
    ensures ItemsFrom(emitted + [e], p)
         == if e.source == p then ItemsFrom(emitted, p) + [e.item] else ItemsFrom(emitted, p)
  {
    assert (emitted + [e])[..|emitted|] == emitted;
  }

  lemma {:induction false} LocalSnoc(events: seq<BusEvent>, e: BusEvent)
    ensures Local(events + [e]) == Local(events) + [HeardOf(e)]
  {
    assert (events + [e])[..|events|] == events;
  }

  lemma {:induction false} RemoteSnoc(events: seq<BusEvent>, e: BusEvent, origin: string)
    ensures Remote(events + [e], origin)
         == if Sendable(e) then Remote(events, origin) + [HeardOf(Shortened(e, origin))] else Remote(events, origin)
  {
    assert (events + [e])[..|events|] == events;
  }

  lemma {:induction false} OwnEvents(notes: seq<Note>, p: nat)
    requires OwnNotes(notes, p)
    ensures |EventsFrom(notes, p)| == |notes|
    ensures notes != [] ==> EventsFrom(notes, p) == [notes[0].event] + EventsFrom(notes[1..], p)
  {
    if notes != [] {
      var n := |notes| - 1;
      OwnEvents(notes[..n], p);
      if n > 0 {
        assert notes[..n][1..] == notes[1..][..n - 1];
      }
    }
  }

  lemma {:induction false} ActorStaysValid(net: Network, a: Action)
    requires Valid(net) && Enabled(net, a)
    ensures ProcValid(net.origins, |After(net, a).channel|, a.p, ActorAfter(net, a))
  {
    var proc, actor := net.procs[a.p], ActorAfter(net, a);
    assert ProcValid(net.origins, |net.channel|, a.p, proc);
    forall i | 0 <= i < |actor.outbox|
      ensures GenuineNote(net.origins, actor.outbox[i]) && actor.outbox[i].source == a.p
    {
      if a.Complete? {
        assert actor.outbox[i] == proc.outbox[i + 1];
      } else if i < |proc.outbox| {
        assert actor.outbox[i] == proc.outbox[i];
      }
    }
  }

  lemma {:induction false} ValidStays(net: Network, a: Action)
    requires Valid(net) && Enabled(net, a)
    ensures Valid(After(net, a)) && |After(net, a).procs| == |net.procs|
  {
    var next := After(net, a);
    ActorStaysValid(net, a);
    forall p | 0 <= p < |net.procs| ensures ProcValid(net.origins, |next.channel|, p, next.procs[p]) {
      assert ProcValid(net.origins, |net.channel|, p, net.procs[p]);
    }
    assert ProcValid(net.origins, |net.channel|, a.p, net.procs[a.p]);
    forall i | 0 <= i < |next.channel| ensures GenuineNote(net.origins, next.channel[i]) {
      if i < |net.channel| {
        assert next.channel[i] == net.channel[i];
      } else {
        assert next.channel[i] == net.procs[a.p].outbox[0];
      }
    }
  }

  /** What a process hears from one delivery: never its own NOTIFY again. */
  lemma {:induction false} DeliverHears(origins: seq<string>, q: nat, proc: Proc, note: Note)
    requires Distinct(origins) && q < |origins| && GenuineNote(origins, note)
    ensures AfterDeliver(proc, note, origins[q]).emitted
         == if note.source == q || !Sendable(note.event) then proc.emitted
            else proc.emitted + [Emission(note.source, HeardOf(Shortened(note.event, origins[note.source])))]
  {
    DecodeOfEncode(note.event, origins[note.source], origins[q]);
    assert origins[note.source] in origins;
  }

  /** Heeds after one delivery, on the values it speaks of. */
  lemma {:induction false} DeliverHeeds(origins: seq<string>, channel: seq<Note>, proc: Proc, p: nat, q: nat)
    requires Distinct(origins) && p < |origins| && q < |origins| && p != q && proc.cursor < |channel|
    requires GenuineNote(origins, channel[proc.cursor])
    requires ItemsFrom(proc.emitted, p) == Remote(EventsFrom(channel[..proc.cursor], p), origins[p])
    ensures ItemsFrom(AfterDeliver(proc, channel[proc.cursor], origins[q]).emitted, p)
         == Remote(EventsFrom(channel[..proc.cursor + 1], p), origins[p])
  {
    hide AfterDeliver, DecodeBusEvent, Shortened, EncodeBusEvent, Sendable, HeardOf, Distinct, EventsFrom, ItemsFrom,
      Remote;
    var note := channel[proc.cursor];
    DeliverHears(origins, q, proc, note);
    assert channel[..proc.cursor + 1] == channel[..proc.cursor] + [note];
    EventsSnoc(channel[..proc.cursor], note, p);
    if note.source == p {
      RemoteSnoc(EventsFrom(channel[..proc.cursor], p), note.event, origins[p]);
    }
    if note.source != q && Sendable(note.event) {
      ItemsSnoc(proc.emitted, Emission(note.source, HeardOf(Shortened(note.event, origins[note.source]))), p);
    }
  }

  /** A delivery adds nothing to what a process emitted of its own. */
  lemma {:induction false} DeliverIsForeign(origins: seq<string>, proc: Proc, note: Note, q: nat)
    requires Distinct(origins) && q < |origins| && GenuineNote(origins, note)
    ensures ItemsFrom(AfterDeliver(proc, note, origins[q]).emitted, q) == ItemsFrom(proc.emitted, q)
  {
    DeliverHears(origins, q, proc, note);
    if note.source != q && Sendable(note.event) {
      ItemsSnoc(proc.emitted, Emission(note.source, HeardOf(Shortened(note.event, origins[note.source]))), q);
    }
  }

  lemma {:induction false} PublishHeeds(proc: Proc, q: nat, e: BusEvent, origin: string, p: nat)
    ensures var next := AfterPublish(proc, q, e, origin);
      && next.cursor == proc.cursor
      && (p != q ==> ItemsFrom(next.emitted, p) == ItemsFrom(proc.emitted, p))
      && (ItemsFrom(proc.emitted, q) == Local(proc.published) ==> ItemsFrom(next.emitted, q) == Local(next.published))
  {
    ItemsSnoc(proc.emitted, Emission(q, HeardOf(e)), p);
    ItemsSnoc(proc.emitted, Emission(q, HeardOf(e)), q);
    LocalSnoc(proc.published, e);
  }

  /** What the other actions leave of a process. */
  lemma {:induction false} QuietHeeds(net: Network, a: Action, q: nat)
    requires Valid(net) && Enabled(net, a) && q < |net.procs|
    requires a.p == q ==> !a.Deliver? && !a.Publish?
    ensures var next, proc := After(net, a).procs[q], net.procs[q];
      && next.emitted == proc.emitted && next.cursor == proc.cursor <= |net.channel|
      && After(net, a).channel[..proc.cursor] == net.channel[..proc.cursor]
  {
    assert ProcValid(net.origins, |net.channel|, q, net.procs[q]);
  }

  lemma {:induction false} PublishedOnlyByPublish(net: Network, a: Action, p: nat)
    requires Enabled(net, a) && p < |net.procs| && !(a.Publish? && a.p == p)
    ensures After(net, a).procs[p].published == net.procs[p].published
  {
  }

  lemma {:induction false} HeedsStays(net: Network, a: Action, p: nat, q: nat)
    requires Valid(net) && Enabled(net, a) && p < |net.procs| && q < |net.procs| && Heeds(net, p, q)
    ensures Valid(After(net, a)) && Heeds(After(net, a), p, q)
  {
    hide ItemsFrom, Remote, Local, EventsFrom, DecodeBusEvent, EncodeBusEvent, HeardOf, Fanout, Distinct;
    ValidStays(net, a);
    var proc := net.procs[q];
    if a.Publish? && a.p == q {
      PublishHeeds(proc, q, a.e, net.origins[q], p);
    } else {
      PublishedOnlyByPublish(net, a, q);
      if a.Deliver? && a.p == q {
        var note := net.channel[proc.cursor];
        assert GenuineNote(net.origins, note);
        if p == q {
          DeliverIsForeign(net.origins, proc, note, q);
        } else {
          DeliverHeeds(net.origins, net.channel, proc, p, q);
        }
      } else {
        QuietHeeds(net, a, q);
      }
    }
  }

  lemma {:induction false} PublishAccounts(channel: seq<Note>, proc: Proc, p: nat, e: BusEvent, origin: string)
    requires proc.bus.forwarding && Accounts(channel, proc, p)
    ensures Accounts(channel, AfterPublish(proc, p, e, origin), p)
  {
    EventsSnoc(proc.outbox, Note(p, e, EncodeBusEvent(e, origin)), p);
    PlusAssociates(EventsFrom(channel, p), EventsFrom(proc.outbox, p), [e]);
  }

  lemma {:induction false} CompleteAccounts(channel: seq<Note>, proc: Proc, p: nat)
    requires proc.outbox != [] && OwnNotes(proc.outbox, p) && Accounts(channel, proc, p)
    ensures Accounts(channel + [proc.outbox[0]], proc.(outbox := proc.outbox[1..]), p)
    ensures Accounts(channel, proc.(outbox := proc.outbox[1..], lost := proc.lost + 1), p)
  {
    EventsSnoc(channel, proc.outbox[0], p);
    OwnEvents(proc.outbox, p);
    PlusAssociates(EventsFrom(channel, p), [proc.outbox[0].event], EventsFrom(proc.outbox[1..], p));
  }

  lemma {:induction false} OtherAccounts(channel: seq<Note>, proc: Proc, p: nat, n: Note)
    requires Accounts(channel, proc, p) && n.source != p
    ensures Accounts(channel + [n], proc, p)
  {
    EventsSnoc(channel, n, p);
  }

  lemma {:induction false} AccountsStays(net: Network, a: Action, p: nat)
    requires Valid(net) && Enabled(net, a) && p < |net.procs| && Accounts(net.channel, net.procs[p], p)
    ensures Accounts(After(net, a).channel, After(net, a).procs[p], p)
  {
    var proc := net.procs[a.p];
    assert ProcValid(net.origins, |net.channel|, a.p, proc);
    if a.Complete? {
      if a.p == p {
        CompleteAccounts(net.channel, proc, p);
      } else if a.ok {
        OtherAccounts(net.channel, net.procs[p], p, proc.outbox[0]);
      }
    } else if a.p == p && a.Publish? {
      PublishAccounts(net.channel, proc, p, a.e, net.origins[p]);
    } else {
      QuietAccounts(net, a, p);
    }
  }

  lemma {:induction false} QuietAccounts(net: Network, a: Action, p: nat)
    requires Enabled(net, a) && p < |net.procs| && !a.Complete? && !(a.p == p && a.Publish?)
    ensures After(net, a).channel == net.channel
    ensures var next, proc := After(net, a).procs[p], net.procs[p];
      next.outbox == proc.outbox && next.lost == proc.lost && next.published == proc.published
  {
  }

  lemma {:induction false} RunKeeps(net: Network, actions: seq<Action>, p: nat, q: nat)
    requires Valid(net) && IsRun(net, actions) && p < |net.procs| && q < |net.procs|
    requires Heeds(net, p, q) && Accounts(net.channel, net.procs[p], p)
    ensures var end := AfterRun(net, actions);
      && Valid(end) && |end.procs| == |net.procs| && end.origins == net.origins
      && Heeds(end, p, q) && Accounts(end.channel, end.procs[p], p)
    decreases |actions|
  {
    if actions != [] {
      var next := After(net, actions[0]);
      HeedsStays(net, actions[0], p, q);
      AccountsStays(net, actions[0], p);
      RunKeeps(next, actions[1..], p, q);
    }
  }

  // ---- what a subscriber receives ----

  function ItemsTo(delivered: seq<Delivery>, s: Sub): seq<Heard> {
    if delivered == [] then []
    else (if delivered[0].to == s then [delivered[0].item] else []) + ItemsTo(delivered[1..], s)
  }

  function OnTopic(emitted: seq<Emission>, t: Topic): seq<Heard> {
    if emitted == [] then []
    else
      var last := emitted[|emitted| - 1].item;
      OnTopic(emitted[..|emitted| - 1], t) + if IsFor(last, t) then [last] else []
  }

  function Count(listeners: seq<Sub>, s: Sub): nat {
    if listeners == [] then 0 else (if listeners[0] == s then 1 else 0) + Count(listeners[1..], s)
  }

  lemma {:induction false} ItemsToAppend(a: seq<Delivery>, b: seq<Delivery>, s: Sub)
    ensures ItemsTo(a + b, s) == ItemsTo(a, s) + ItemsTo(b, s)
  {
    if a == [] {
      assert a + b == b;
    } else {
      ItemsToAppend(a[1..], b, s);
      assert (a + b)[1..] == a[1..] + b;
      PlusAssociates(if a[0].to == s then [a[0].item] else [], ItemsTo(a[1..], s), ItemsTo(b, s));
    }
  }

  lemma {:induction false} CountAppend(a: seq<Sub>, b: seq<Sub>, s: Sub)
    ensures Count(a + b, s) == Count(a, s) + Count(b, s)
  {
    if a == [] {
      assert a + b == b;
    } else {
      CountAppend(a[1..], b, s);
      assert (a + b)[1..] == a[1..] + b;
    }
  }

  lemma {:induction false} WithoutOther(listeners: seq<Sub>, other: Sub, s: Sub)
    requires other != s
    ensures Count(Without(listeners, other), s) == Count(listeners, s)
  {
    if listeners != [] {
      var n := |listeners| - 1;
      assert listeners == listeners[..n] + [listeners[n]];
      CountAppend(listeners[..n], [listeners[n]], s);
      if listeners[n] != other {
        WithoutOther(listeners[..n], other, s);
        CountAppend(Without(listeners[..n], other), [listeners[n]], s);
      }
    }
  }

  /** An emit calls a listener once for each time it is registered, and only on its topic. */
  lemma {:induction false} FanoutTo(listeners: seq<Sub>, h: Heard, s: Sub)
    requires Count(listeners, s) <= 1
    ensures ItemsTo(Fanout(listeners, h), s) == if Count(listeners, s) == 1 && IsFor(h, s.topic) then [h] else []
  {
    if listeners != [] {
      FanoutTo(listeners[1..], h, s);
      var first := if listeners[0].topic == TopicOf(h) then [Delivery(listeners[0], h)] else [];
      ItemsToAppend(first, Fanout(listeners[1..], h), s);
    }
  }

  /** Since the process was as `since`, its subscriber s has been called with everything the process emitted on the
      topic of s, in order. */
  ghost predicate ServedSince(since: Proc, proc: Proc, s: Sub) {
    && Count(proc.bus.listeners, s) == 1
    && since.bus.delivered <= proc.bus.delivered && since.emitted <= proc.emitted
    && ItemsTo(proc.bus.delivered[|since.bus.delivered|..], s) == OnTopic(proc.emitted[|since.emitted|..], s.topic)
  }

  lemma {:induction false} EmitServes(since: Proc, proc: Proc, source: nat, h: Heard, s: Sub)
    requires ServedSince(since, proc, s)
    ensures ServedSince(since, proc.(bus := Emitted(proc.bus, h), emitted := proc.emitted + [Emission(source, h)]), s)
  {
    hide Count, ItemsTo, Fanout, IsFor;
    var heard, emitted := proc.bus.delivered[|since.bus.delivered|..], proc.emitted[|since.emitted|..];
    var calls, e := Fanout(proc.bus.listeners, h), Emission(source, h);
    FanoutTo(proc.bus.listeners, h, s);
    ItemsToAppend(heard, calls, s);
    assert (proc.bus.delivered + calls)[|since.bus.delivered|..] == heard + calls;
    assert (proc.emitted + [e])[|since.emitted|..] == emitted + [e] && (emitted + [e])[..|emitted|] == emitted;
  }

  /** Neither subscribes nor unsubscribes s at q. */
  ghost predicate Keeps(a: Action, q: nat, s: Sub) {
    (a.Subscribe? || a.Unsubscribe?) && a.p == q ==> a.s != s
  }

  lemma {:induction false} ServedStays(net: Network, a: Action, q: nat, since: Proc, s: Sub)
    requires Enabled(net, a) && q < |net.procs| && ServedSince(since, net.procs[q], s) && Keeps(a, q, s)
    ensures ServedSince(since, After(net, a).procs[q], s)
  {
    var proc := net.procs[q];
    if a.p == q {
      match a
      case Subscribe(_, other) => CountAppend(proc.bus.listeners, [other], s);
      case Unsubscribe(_, other) => WithoutOther(proc.bus.listeners, other, s);
      case Publish(_, e) => EmitServes(since, proc, q, HeardOf(e), s);
      case Complete(_, _) =>
      case Deliver(_) =>
        var note := net.channel[proc.cursor];
        var heard := DecodeBusEvent(note.payload, net.origins[q]);
        if heard.Some? {
          EmitServes(since, proc, note.source, heard.value, s);
        }
    }
  }

  lemma {:induction false} RunServes(net: Network, actions: seq<Action>, q: nat, since: Proc, s: Sub)
    requires IsRun(net, actions) && q < |net.procs| && ServedSince(since, net.procs[q], s)
    requires forall i :: 0 <= i < |actions| ==> Keeps(actions[i], q, s)
    ensures q < |AfterRun(net, actions).procs| && ServedSince(since, AfterRun(net, actions).procs[q], s)
    decreases |actions|
  {
    if actions != [] {
      ServedStays(net, actions[0], q, since, s);
      RunServes(After(net, actions[0]), actions[1..], q, since, s);
    }
  }

  // ---- the theorems ----

  /** Bridges up, nothing published yet, any listeners. */
  ghost predicate Start(net: Network) {
    && |net.procs| == |net.origins| && Distinct(net.origins) && net.channel == []
    && forall p :: 0 <= p < |net.procs| ==> FreshProc(net.procs[p])
  }

  ghost predicate FreshProc(proc: Proc) {
    && proc.bus.forwarding && proc.bus.delivered == [] && proc.outbox == [] && proc.cursor == 0
    && proc.lost == 0 && proc.published == [] && proc.emitted == []
  }

  lemma {:induction false} StartHeeds(net: Network, p: nat, q: nat)
    requires Start(net) && p < |net.procs| && q < |net.procs|
    ensures Valid(net) && Heeds(net, p, q) && Accounts(net.channel, net.procs[p], p)
  {
    forall r | 0 <= r < |net.procs| ensures ProcValid(net.origins, |net.channel|, r, net.procs[r]) {
      assert FreshProc(net.procs[r]);
    }
    assert FreshProc(net.procs[p]) && FreshProc(net.procs[q]);
  }

  /** No loops, in every run: each publish is exactly one NOTIFY, completed, pending or failed, however many
      processes re-emit it. */
  lemma {:induction false} OneNotifyPerPublish(net: Network, actions: seq<Action>, p: nat)
    requires Start(net) && IsRun(net, actions) && p < |net.procs|
    ensures var end := AfterRun(net, actions);
      p < |end.procs|
      && |EventsFrom(end.channel, p)| + |end.procs[p].outbox| + end.procs[p].lost == |end.procs[p].published|
  {
    StartHeeds(net, p, p);
    RunKeeps(net, actions, p, p);
  }

  /** A process emits its own publishes once each, in order, and never again from the channel. */
  lemma {:induction false} OwnFramesOnce(net: Network, actions: seq<Action>, p: nat)
    requires Start(net) && IsRun(net, actions) && p < |net.procs|
    ensures var end := AfterRun(net, actions);
      p < |end.procs| && ItemsFrom(end.procs[p].emitted, p) == Local(end.procs[p].published)
  {
    StartHeeds(net, p, p);
    RunKeeps(net, actions, p, p);
  }

  /** Fan-out: another process emits the NOTIFYs of p that it has read, each once and in order; once p's
      outbox is empty, none failed and the channel is read, that is all p published. */
  lemma {:induction false} RemoteFramesOnce(net: Network, actions: seq<Action>, p: nat, q: nat)
    requires Start(net) && IsRun(net, actions) && p < |net.procs| && q < |net.procs| && p != q
    ensures var end := AfterRun(net, actions);
      && p < |end.procs| == |net.procs| && end.procs[q].cursor <= |end.channel|
      && ItemsFrom(end.procs[q].emitted, p)
         == Remote(EventsFrom(end.channel[..end.procs[q].cursor], p), net.origins[p])
      && (end.procs[p].outbox == [] && end.procs[p].lost == 0 && end.procs[q].cursor == |end.channel| ==>
            ItemsFrom(end.procs[q].emitted, p) == Remote(end.procs[p].published, net.origins[p]))
  {
    hide Start, IsRun, AfterRun, ItemsFrom, Remote;
    StartHeeds(net, p, q);
    RunKeeps(net, actions, p, q);
    var end := AfterRun(net, actions);
    assert ProcValid(end.origins, |end.channel|, q, end.procs[q]);
    assert end.channel[..|end.channel|] == end.channel;
    assert EventsFrom(end.channel, p) + [] == EventsFrom(end.channel, p);
  }

  lemma {:induction false} RunAppend(net: Network, before: seq<Action>, later: seq<Action>)
    requires IsRun(net, before) && IsRun(AfterRun(net, before), later)
    ensures IsRun(net, before + later) && AfterRun(net, before + later) == AfterRun(AfterRun(net, before), later)
    decreases |before|
  {
    hide After, Enabled;
    if before == [] {
      assert before + later == later;
    } else {
      RunAppend(After(net, before[0]), before[1..], later);
      assert (before + later)[1..] == before[1..] + later;
    }
  }

  /** After the first actions s, not registered at q, subscribes, and it stays for the later ones. */
  ghost predicate Stays(net: Network, before: seq<Action>, later: seq<Action>, q: nat, s: Sub) {
    && IsRun(net, before) && q < |AfterRun(net, before).procs|
    && Count(AfterRun(net, before).procs[q].bus.listeners, s) == 0
    && later != [] && later[0] == Subscribe(q, s) && IsRun(AfterRun(net, before), later)
    && forall i :: 1 <= i < |later| ==> Keeps(later[i], q, s)
  }

  /** From its subscription on, whenever that is, a subscriber that stays is called with exactly what its process
      emits on its topic, in order: its own process's publishes and the other processes' NOTIFYs. */
  lemma {:induction false} SubscriberHearsAll(net: Network, before: seq<Action>, later: seq<Action>, q: nat, s: Sub)
    requires Stays(net, before, later, q, s)
    ensures var since, end := AfterRun(net, before).procs[q], AfterRun(AfterRun(net, before), later);
      && q < |end.procs| && since.bus.delivered <= end.procs[q].bus.delivered && since.emitted <= end.procs[q].emitted
      && ItemsTo(end.procs[q].bus.delivered[|since.bus.delivered|..], s)
         == OnTopic(end.procs[q].emitted[|since.emitted|..], s.topic)
  {
    var mid := AfterRun(net, before);
    var since, next := mid.procs[q], After(mid, later[0]);
    CountAppend(since.bus.listeners, [s], s);
    assert since.bus.delivered[|since.bus.delivered|..] == [] && since.emitted[|since.emitted|..] == [];
    RunServes(next, later[1..], q, since, s);
  }

  // ---- exactly once ----

  function Times(items: seq<Heard>, h: Heard): nat {
    if items == [] then 0 else Times(items[..|items| - 1], h) + if items[|items| - 1] == h then 1 else 0
  }

  /** How often the first n processes' publishes are h as process q hears them. */
  function Publishes(net: Network, q: nat, h: Heard, n: nat): nat
    requires n <= |net.procs| == |net.origins|
  {
    if n == 0 then 0
    else
      var p := n - 1;
      var heard := if p == q then Local(net.procs[p].published) else Remote(net.procs[p].published, net.origins[p]);
      Publishes(net, q, h, p) + Times(heard, h)
  }

  function TimesFrom(emitted: seq<Emission>, h: Heard, n: nat): nat {
    if n == 0 then 0 else TimesFrom(emitted, h, n - 1) + Times(ItemsFrom(emitted, n - 1), h)
  }

  ghost predicate SourcesBelow(emitted: seq<Emission>, n: nat) {
    forall i :: 0 <= i < |emitted| ==> emitted[i].source < n
  }

  lemma {:induction false} TimesSnoc(items: seq<Heard>, last: Heard, h: Heard)
    ensures Times(items + [last], h) == Times(items, h) + if last == h then 1 else 0
  {
    assert (items + [last])[..|items|] == items;
  }

  lemma {:induction false} OneMoreEmission(emitted: seq<Emission>, e: Emission, h: Heard, n: nat)
    ensures TimesFrom(emitted + [e], h, n) == TimesFrom(emitted, h, n) + if e.source < n && e.item == h then 1 else 0
  {
    hide ItemsFrom, Times;
    if n > 0 {
      OneMoreEmission(emitted, e, h, n - 1);
      ItemsSnoc(emitted, e, n - 1);
      TimesSnoc(ItemsFrom(emitted, n - 1), e.item, h);
    }
  }

  /** What a topic's subscribers hear is what came from each process, counted together. */
  lemma {:induction false} CountBySource(emitted: seq<Emission>, h: Heard, t: Topic, n: nat)
    requires SourcesBelow(emitted, n) && IsFor(h, t)
    ensures Times(OnTopic(emitted, t), h) == TimesFrom(emitted, h, n)
  {
    if emitted == [] {
      NothingEmitted(h, n);
    } else {
      hide Times, TimesFrom, IsFor;
      var k := |emitted| - 1;
      CountBySource(emitted[..k], h, t, n);
      OneMoreEmission(emitted[..k], emitted[k], h, n);
      assert emitted == emitted[..k] + [emitted[k]];
      TimesSnoc(OnTopic(emitted[..k], t), emitted[k].item, h);
      assert OnTopic(emitted[..k], t) + [] == OnTopic(emitted[..k], t);
    }
  }

  lemma {:induction false} NothingEmitted(h: Heard, n: nat)
    ensures TimesFrom([], h, n) == 0
  {
    if n > 0 {
      NothingEmitted(h, n - 1);
    }
  }

  lemma {:induction false} SourcesStay(net: Network, a: Action, q: nat)
    requires Valid(net) && Enabled(net, a) && q < |net.procs| && SourcesBelow(net.procs[q].emitted, |net.procs|)
    ensures SourcesBelow(After(net, a).procs[q].emitted, |net.procs|)
  {
    if a.Deliver? && a.p == q {
      assert GenuineNote(net.origins, net.channel[net.procs[q].cursor]);
    }
  }

  lemma {:induction false} RunSources(net: Network, actions: seq<Action>, q: nat)
    requires Valid(net) && IsRun(net, actions) && q < |net.procs| && SourcesBelow(net.procs[q].emitted, |net.procs|)
    ensures var end := AfterRun(net, actions);
      |end.procs| == |net.procs| && SourcesBelow(end.procs[q].emitted, |net.procs|)
    decreases |actions|
  {
    if actions != [] {
      ValidStays(net, actions[0]);
      SourcesStay(net, actions[0], q);
      RunSources(After(net, actions[0]), actions[1..], q);
    }
  }

  /** All that anyone published has been delivered to process q. */
  ghost predicate AtRestFor(net: Network, q: nat)
    requires q < |net.procs|
  {
    && net.procs[q].cursor == |net.channel|
    && forall p :: 0 <= p < |net.procs| && p != q ==> net.procs[p].outbox == [] && net.procs[p].lost == 0
  }

  lemma {:induction false} HeardIsPublished(net: Network, actions: seq<Action>, q: nat, h: Heard, n: nat)
    requires Start(net) && IsRun(net, actions) && q < |net.procs| && n <= |net.procs|
    requires q < |AfterRun(net, actions).procs| && AtRestFor(AfterRun(net, actions), q)
    ensures var end := AfterRun(net, actions);
      && |end.procs| == |end.origins| == |net.procs| && end.origins == net.origins
      && TimesFrom(end.procs[q].emitted, h, n) == Publishes(end, q, h, n)
  {
    hide Start, IsRun, AfterRun, Valid, Heeds, Accounts, ItemsFrom, Remote, Local, EventsFrom, Times;
    StartHeeds(net, q, q);
    RunKeeps(net, actions, q, q);
    if n > 0 {
      HeardIsPublished(net, actions, q, h, n - 1);
      if n - 1 == q {
        OwnFramesOnce(net, actions, q);
      } else {
        RemoteFramesOnce(net, actions, n - 1, q);
      }
    }
  }

  lemma {:induction false} OnTopicAppend(a: seq<Emission>, b: seq<Emission>, t: Topic)
    ensures OnTopic(a + b, t) == OnTopic(a, t) + OnTopic(b, t)
  {
    hide IsFor;
    if b == [] {
      assert a + b == a && OnTopic(a, t) + [] == OnTopic(a, t);
    } else {
      var n := |b| - 1;
      OnTopicAppend(a, b[..n], t);
      assert (a + b)[..|a + b| - 1] == a + b[..n];
      PlusAssociates(OnTopic(a, t), OnTopic(b[..n], t), if IsFor(b[n].item, t) then [b[n].item] else []);
    }
  }

  lemma {:induction false} TimesAppend(a: seq<Heard>, b: seq<Heard>, h: Heard)
    ensures Times(a + b, h) == Times(a, h) + Times(b, h)
  {
    if b == [] {
      assert a + b == a;
    } else {
      var n := |b| - 1;
      TimesAppend(a, b[..n], h);
      assert a + b == (a + b[..n]) + [b[n]];
      TimesSnoc(a + b[..n], b[n], h);
    }
  }

  /** Exactly once: when everything has been delivered, a subscriber that stayed has been called with h exactly as
      often as all processes together published it, less what its process had emitted before it subscribed. */
  lemma {:induction false} EveryFrameExactlyOnce(net: Network, before: seq<Action>, later: seq<Action>, q: nat,
                                                 s: Sub, h: Heard)
    requires Start(net) && q < |net.procs| && Stays(net, before, later, q, s)
    requires h.HeardLog? == s.topic.isLog && h.deploymentId == s.topic.deploymentId
    requires var end := AfterRun(AfterRun(net, before), later); q < |end.procs| && AtRestFor(end, q)
    ensures var since, end := AfterRun(net, before).procs[q], AfterRun(AfterRun(net, before), later);
      && |end.procs| == |end.origins| && |since.bus.delivered| <= |end.procs[q].bus.delivered|
      && Times(OnTopic(since.emitted, s.topic), h)
         + Times(ItemsTo(end.procs[q].bus.delivered[|since.bus.delivered|..], s), h)
         == Publishes(end, q, h, |end.procs|)
  {
    hide AfterRun, ItemsFrom, Times, TimesFrom, Publishes, OnTopic, ItemsTo, AtRestFor, Count;
    var since, end := AfterRun(net, before).procs[q], AfterRun(AfterRun(net, before), later);
    RunAppend(net, before, later);
    SubscriberHearsAll(net, before, later, q, s);
    StartHeeds(net, q, q);
    assert FreshProc(net.procs[q]);
    RunSources(net, before + later, q);
    CountBySource(end.procs[q].emitted, h, s.topic, |net.procs|);
    HeardIsPublished(net, before + later, q, h, |net.procs|);
    assert end.procs[q].emitted == since.emitted + end.procs[q].emitted[|since.emitted|..];
    OnTopicAppend(since.emitted, end.procs[q].emitted[|since.emitted|..], s.topic);
    TimesAppend(OnTopic(since.emitted, s.topic), OnTopic(end.procs[q].emitted[|since.emitted|..], s.topic), h);
  }

  // ---- no run is stuck ----

  /** A completed NOTIFY or a read one: the steps that need nobody to act. */
  predicate Settling(a: Action) { (a.Complete? && a.ok) || a.Deliver? }

  ghost predicate SettlingRun(net: Network, more: seq<Action>) {
    IsRun(net, more) && forall i :: 0 <= i < |more| ==> Settling(more[i])
  }

  lemma {:induction false} SettlingAppend(net: Network, a: seq<Action>, b: seq<Action>)
    requires SettlingRun(net, a) && SettlingRun(AfterRun(net, a), b)
    ensures SettlingRun(net, a + b) && AfterRun(net, a + b) == AfterRun(AfterRun(net, a), b)
  {
    RunAppend(net, a, b);
  }

  lemma {:induction false} OneSettling(net: Network, a: Action)
    requires Enabled(net, a) && Settling(a)
    ensures SettlingRun(net, [a]) && AfterRun(net, [a]) == After(net, a)
  {
    hide After, Enabled;
    var next := After(net, a);
    assert IsRun(next, []) && AfterRun(next, []) == next;
    assert [a][0] == a && [a][1..] == [];
  }

  /** The pending NOTIFYs of p complete; nothing else about any process changes. */
  lemma {:induction false} Drain(net: Network, p: nat) returns (more: seq<Action>)
    requires p < |net.procs| == |net.origins|
    ensures SettlingRun(net, more)
    ensures var end := AfterRun(net, more);
      end.origins == net.origins && end.procs == net.procs[p := net.procs[p].(outbox := [])]
    decreases |net.procs[p].outbox|
  {
    more := [];
    if net.procs[p].outbox != [] {
      var a := Complete(p, true);
      OneSettling(net, a);
      var rest := Drain(After(net, a), p);
      SettlingAppend(net, [a], rest);
      more := [a] + rest;
    }
  }

  lemma {:induction false} DrainFirst(net: Network, n: nat) returns (more: seq<Action>)
    requires n <= |net.procs| == |net.origins|
    ensures SettlingRun(net, more)
    ensures var end := AfterRun(net, more);
      && end.origins == net.origins && |end.procs| == |net.procs|
      && forall p :: 0 <= p < |net.procs| ==>
           end.procs[p] == if p < n then net.procs[p].(outbox := []) else net.procs[p]
  {
    more := [];
    if n > 0 {
      var first := DrainFirst(net, n - 1);
      var last := Drain(AfterRun(net, first), n - 1);
      SettlingAppend(net, first, last);
      more := first + last;
    }
  }

  /** Process p reads the channel to its end; the channel, the other processes and p's NOTIFYs stay. */
  lemma {:induction false} Read(net: Network, p: nat) returns (more: seq<Action>)
    requires p < |net.procs| == |net.origins| && net.procs[p].cursor <= |net.channel|
    ensures SettlingRun(net, more)
    ensures var end := AfterRun(net, more);
      && end.origins == net.origins && end.channel == net.channel && |end.procs| == |net.procs|
      && end.procs[p].cursor == |net.channel| && end.procs[p].outbox == net.procs[p].outbox
      && end.procs[p].lost == net.procs[p].lost
      && forall q :: 0 <= q < |net.procs| && q != p ==> end.procs[q] == net.procs[q]
    decreases |net.channel| - net.procs[p].cursor
  {
    hide DecodeBusEvent, Emitted;
    more := [];
    if net.procs[p].cursor < |net.channel| {
      var a := Deliver(p);
      OneSettling(net, a);
      var rest := Read(After(net, a), p);
      SettlingAppend(net, [a], rest);
      more := [a] + rest;
    }
  }

  /** Every run can come to rest: at any point, completing the pending NOTIFYs and reading the channel, with nobody
      acting, brings everything ever published, but what is lost by then, to process q. */
  lemma {:induction false} EveryRunCanSettle(net: Network, actions: seq<Action>, q: nat) returns (more: seq<Action>)
    requires Start(net) && IsRun(net, actions) && q < |net.procs|
    ensures IsRun(net, actions + more)
    ensures forall i :: 0 <= i < |more| ==> more[i].Deliver? || (more[i].Complete? && more[i].ok)
    ensures var now, end := AfterRun(net, actions), AfterRun(net, actions + more);
      && |now.procs| == |end.procs| == |net.procs| && end.procs[q].cursor == |end.channel|
      && forall p :: 0 <= p < |net.procs| ==> end.procs[p].outbox == [] && end.procs[p].lost == now.procs[p].lost
  {
    hide Start, After, Enabled, IsRun, AfterRun;
    StartHeeds(net, q, q);
    RunKeeps(net, actions, q, q);
    var now := AfterRun(net, actions);
    assert ProcValid(now.origins, |now.channel|, q, now.procs[q]);
    var drained := DrainFirst(now, |now.procs|);
    var rest := AfterRun(now, drained);
    ChannelGrows(now, drained);
    var read := Read(rest, q);
    SettlingAppend(now, drained, read);
    more := drained + read;
    RunAppend(net, actions, more);
  }

  lemma {:induction false} ChannelGrows(net: Network, actions: seq<Action>)
    requires IsRun(net, actions)
    ensures |net.channel| <= |AfterRun(net, actions).channel|
    decreases |actions|
  {
    if actions != [] {
      ChannelGrows(After(net, actions[0]), actions[1..]);
    }
  }

  /** Any distinct, non-empty origins can be started with, and at any time any process may subscribe and publish. */
  lemma {:induction false} AnyOriginsStart(origins: seq<string>)
    requires forall i, j :: 0 <= i < j < |origins| ==> origins[i] != origins[j]
    requires forall i :: 0 <= i < |origins| ==> origins[i] != ""
    ensures exists net :: Start(net) && net.origins == origins
  {
    var proc := Proc(BusState(true, [], [], []), [], 0, 0, [], []);
    assert Start(Network(origins, seq(|origins|, i => proc), []));
  }

  lemma {:induction false} AnyoneMayAct(net: Network, actions: seq<Action>, p: nat, s: Sub, e: BusEvent)
    requires Start(net) && IsRun(net, actions) && p < |net.procs|
    ensures forall a :: a in {Subscribe(p, s), Publish(p, e), Unsubscribe(p, s)} ==> IsRun(net, actions + [a])
  {
    hide After, Start;
    StartHeeds(net, p, p);
    RunKeeps(net, actions, p, p);
    forall a | a in {Subscribe(p, s), Publish(p, e), Unsubscribe(p, s)} ensures IsRun(net, actions + [a]) {
      var now := AfterRun(net, actions);
      assert Enabled(now, a) && [a][1..] == [] && IsRun(After(now, a), []);
      RunAppend(net, actions, [a]);
    }
  }
}
