/** The parking registry of routes/chat.ts: a streaming turn parks a promise under a fresh id, a timer may
    settle it with a default, and a POST of the owner may settle it with an answer. Approvals and plans
    share one registry of booleans (default false); input forms have their own (default null). */
module ConsentRegistry {
  import opened Text

  /** The organisation and the user a turn belongs to. */
  datatype Owner = Owner(orgId: string, userId: Option<string>)

  /** The map of parked resolvers, the armed timers, and the values the promises settled with. */
  datatype Desk<T> = Desk(pending: map<string, Owner>, timers: set<string>, settled: map<string, T>)

  datatype Event<T> =
    | Park(id: string, owner: Owner)
    | TimerFires(id: string)
    | Post(id: string, owner: Owner, value: T)

  function EmptyDesk<T>(): Desk<T> {
    Desk(map[], {}, map[])
  }

  /** A promise keeps the first value it is resolved with. */
  function Settle<T>(settled: map<string, T>, id: string, value: T): map<string, T> {
    if id in settled then settled else settled[id := value]
  }

  /** randomUUID gives an id no promise has had; a timer fires only while armed; a POST may come at any time. */
  predicate Enabled<T>(desk: Desk<T>, e: Event<T>) {
    match e
    case Park(id, _) => id !in desk.pending && id !in desk.settled
    case TimerFires(id) => id in desk.timers
    case Post(_, _, _) => true
  }

  predicate Accepts<T>(desk: Desk<T>, id: string, owner: Owner) {
    id in desk.pending && desk.pending[id] == owner
  }

  function After<T>(desk: Desk<T>, e: Event<T>, expired: T): Desk<T> {
    match e
    case Park(id, owner) => desk.(pending := desk.pending[id := owner], timers := desk.timers + {id})
    case TimerFires(id) =>
      Desk(desk.pending - {id}, desk.timers - {id}, Settle(desk.settled, id, expired))
    case Post(id, owner, value) =>
      if Accepts(desk, id, owner) then Desk(desk.pending - {id}, desk.timers - {id}, Settle(desk.settled, id, value))
      else desk
  }

  class Registry<T> {
    const expired: T
    var pending: map<string, Owner>
    var timers: set<string>
    var settled: map<string, T>

    constructor (expired: T)
      ensures this.expired == expired && State() == EmptyDesk()
    {
      this.expired := expired;
      pending, timers, settled := map[], {}, map[];
    }

    function State(): Desk<T>
      reads this
    {
      Desk(pending, timers, settled)
    }

    /** requestApproval, requestPlan and requestInput up to the promise they return. */
    method Request(id: string, owner: Owner)
      requires Enabled(State(), Event<T>.Park(id, owner))
      modifies this
      ensures State() == After(old(State()), Park(id, owner), expired)
    {
      timers := timers + {id};
      pending := pending[id := owner];
    }

    method OnTimer(id: string)
      requires Enabled(State(), Event<T>.TimerFires(id))
      modifies this
      ensures State() == After(old(State()), TimerFires(id), expired)
    {
      timers := timers - {id};
      pending := pending - {id};
      if id !in settled {
        settled := settled[id := expired];
      }
    }

    /** resolvePending, with the entry's resolve inlined. */
    method Resolve(id: string, owner: Owner, value: T) returns (ok: bool)
      modifies this
      ensures ok == Accepts(old(State()), id, owner)
      ensures State() == After(old(State()), Post(id, owner, value), expired)
    {
      if id !in pending {
        return false;
      }
      var entry := pending[id];
      if entry.orgId != owner.orgId || entry.userId != owner.userId {
        return false;
      }
      timers := timers - {id};
      pending := pending - {id};
      if id !in settled {
        settled := settled[id := value];
      }
      return true;
    }
  }

  // ---- every session ----

  ghost predicate IsSession<T(!new)>(desk: Desk<T>, events: seq<Event<T>>, expired: T)
    decreases |events|
  {
    events == [] || (Enabled(desk, events[0]) && IsSession(After(desk, events[0], expired), events[1..], expired))
  }

  function AfterAll<T>(desk: Desk<T>, events: seq<Event<T>>, expired: T): Desk<T>
    decreases |events|
  {
    if events == [] then desk else AfterAll(After(desk, events[0], expired), events[1..], expired)
  }

  /** What a parked promise should settle with: the first of its timer and a POST of its owner. */
  function FirstAnswer<T>(events: seq<Event<T>>, id: string, owner: Owner, expired: T): Option<T>
    decreases |events|
  {
    if events == [] then None
    else
      match events[0]
      case TimerFires(i) => if i == id then Some(expired) else FirstAnswer(events[1..], id, owner, expired)
      case Post(i, o, value) =>
        if i == id && o == owner then Some(value) else FirstAnswer(events[1..], id, owner, expired)
      case Park(_, _) => FirstAnswer(events[1..], id, owner, expired)
  }

  /** The owner that parked the id, if any did. */
  function OwnerOf<T>(events: seq<Event<T>>, id: string): Option<Owner>
    decreases |events|
  {
    if events == [] then None
    else if events[0].Park? && events[0].id == id then Some(events[0].owner)
    else OwnerOf(events[1..], id)
  }

  /** What a whole session answers a request with. */
  function Verdict<T>(events: seq<Event<T>>, id: string, expired: T): Option<T>
    decreases |events|
  {
    if events == [] then None
    else if events[0].Park? && events[0].id == id then FirstAnswer(events[1..], id, events[0].owner, expired)
    else Verdict(events[1..], id, expired)
  }

  ghost predicate Valid<T>(desk: Desk<T>) {
    desk.pending.Keys == desk.timers && desk.pending.Keys !! desk.settled.Keys
  }

  lemma {:induction false} ValidStays<T>(desk: Desk<T>, e: Event<T>, expired: T)
    requires Valid(desk) && Enabled(desk, e)
    ensures Valid(After(desk, e, expired))
  {
  }

  /** A settled promise stays as it is: later timers and POSTs change nothing. */
  lemma {:induction false} SettledStays<T(!new)>(desk: Desk<T>, events: seq<Event<T>>, expired: T, id: string)
    requires Valid(desk) && IsSession(desk, events, expired) && id in desk.settled
    ensures var end := AfterAll(desk, events, expired); id in end.settled && end.settled[id] == desk.settled[id]
    decreases |events|
  {
    if events != [] {
      ValidStays(desk, events[0], expired);
      SettledStays(After(desk, events[0], expired), events[1..], expired, id);
    }
  }

  lemma {:induction false} ParkedEnds<T(!new)>(desk: Desk<T>, events: seq<Event<T>>, expired: T, id: string)
    requires Valid(desk) && IsSession(desk, events, expired) && id in desk.pending
    ensures var end, answer := AfterAll(desk, events, expired), FirstAnswer(events, id, desk.pending[id], expired);
      && (id in end.settled <==> answer.Some?) && (id in end.pending <==> answer.None?)
      && (answer.Some? ==> end.settled[id] == answer.value)
    decreases |events|
  {
    if events != [] {
      ValidStays(desk, events[0], expired);
      var next := After(desk, events[0], expired);
      if id in next.pending {
        ParkedEnds(next, events[1..], expired, id);
      } else {
        SettledStays(next, events[1..], expired, id);
        SettledIsNotPending(next, events[1..], expired, id);
      }
    }
  }

  lemma {:induction false} SettledIsNotPending<T(!new)>(desk: Desk<T>, events: seq<Event<T>>, expired: T, id: string)
    requires Valid(desk) && IsSession(desk, events, expired) && id in desk.settled
    ensures id !in AfterAll(desk, events, expired).pending
    decreases |events|
  {
    if events != [] {
      ValidStays(desk, events[0], expired);
      SettledIsNotPending(After(desk, events[0], expired), events[1..], expired, id);
    }
  }

  /** Main result: over every session, a promise settles exactly when its timer or a POST of the owner that
      parked it comes first, with that value, once; POSTs of anyone else, of an unknown id or of a settled
      one leave it alone. */
  lemma {:induction false} SettlesWithItsVerdict<T(!new)>(desk: Desk<T>, events: seq<Event<T>>, expired: T, id: string)
    requires Valid(desk) && IsSession(desk, events, expired) && id !in desk.pending && id !in desk.settled
    ensures var end, verdict := AfterAll(desk, events, expired), Verdict(events, id, expired);
      && (id in end.settled <==> verdict.Some?)
      && (id in end.pending <==> OwnerOf(events, id).Some? && verdict.None?)
      && (verdict.Some? ==> end.settled[id] == verdict.value)
    decreases |events|
  {
    if events != [] {
      ValidStays(desk, events[0], expired);
      var next := After(desk, events[0], expired);
      if events[0].Park? && events[0].id == id {
        ParkedEnds(next, events[1..], expired, id);
      } else {
        SettlesWithItsVerdict(next, events[1..], expired, id);
      }
    }
  }

  /** Position j answers the request parked under id: the owner's own POST, before the timer and before any
      other answer of the owner. */
  ghost predicate AnsweredAt<T>(events: seq<Event<T>>, id: string, owner: Owner, value: T, j: int) {
    && 0 <= j < |events| && events[j] == Post(id, owner, value)
    && forall i :: 0 <= i < j ==>
         events[i] != TimerFires(id) && !(events[i].Post? && events[i].id == id && events[i].owner == owner)
  }

  lemma {:induction false} FirstAnswerIsAPost<T>(events: seq<Event<T>>, id: string, owner: Owner, expired: T, value: T)
    requires FirstAnswer(events, id, owner, expired) == Some(value) && value != expired
    ensures exists j :: AnsweredAt(events, id, owner, value, j)
    decreases |events|
  {
    var e := events[0];
    if e.Post? && e.id == id && e.owner == owner {
      assert AnsweredAt(events, id, owner, value, 0);
    } else {
      FirstAnswerIsAPost(events[1..], id, owner, expired, value);
      var j :| AnsweredAt(events[1..], id, owner, value, j);
      forall i | 0 <= i < j + 1
        ensures events[i] != TimerFires(id) && !(events[i].Post? && events[i].id == id && events[i].owner == owner)
      {
        assert i > 0 ==> events[i] == events[1..][i - 1];
      }
      assert AnsweredAt(events, id, owner, value, j + 1);
    }
  }

  /** The request was parked at p by its owner, and j events later its owner answered it. */
  ghost predicate ParkedAndAnswered<T>(events: seq<Event<T>>, id: string, owner: Owner, value: T, p: int, j: int) {
    0 <= p < |events| && events[p] == Park(id, owner) && AnsweredAt(events[p + 1..], id, owner, value, j)
  }

  /** An answer other than the default is the owner's: some POST with the parking owner gave it, after the
      park and before the timer. In particular `true` is never a timeout and never another user's. */
  lemma {:induction false} OnlyTheOwnerAnswers<T>(events: seq<Event<T>>, id: string, expired: T, value: T)
    requires Verdict(events, id, expired) == Some(value) && value != expired
    ensures OwnerOf(events, id).Some?
    ensures exists p, j :: ParkedAndAnswered(events, id, OwnerOf(events, id).value, value, p, j)
    decreases |events|
  {
    var rest := events[1..];
    if events[0].Park? && events[0].id == id {
      FirstAnswerIsAPost(rest, id, events[0].owner, expired, value);
      var j :| AnsweredAt(rest, id, events[0].owner, value, j);
      assert ParkedAndAnswered(events, id, events[0].owner, value, 0, j);
    } else {
      OnlyTheOwnerAnswers(rest, id, expired, value);
      var owner := OwnerOf(events, id).value;
      var p, j :| ParkedAndAnswered(rest, id, owner, value, p, j);
      assert events[p + 1 + 1..] == rest[p + 1..];
      assert ParkedAndAnswered(events, id, owner, value, p + 1, j);
    }
  }

  // ---- one session after another ----

  lemma {:induction false} SessionAppend<T(!new)>(desk: Desk<T>, a: seq<Event<T>>, b: seq<Event<T>>, expired: T)
    requires IsSession(desk, a, expired) && IsSession(AfterAll(desk, a, expired), b, expired)
    ensures IsSession(desk, a + b, expired)
    ensures AfterAll(desk, a + b, expired) == AfterAll(AfterAll(desk, a, expired), b, expired)
    decreases |a|
  {
    hide Enabled, After;
    if a == [] {
      assert a + b == b;
    } else {
      SessionAppend(After(desk, a[0], expired), a[1..], b, expired);
      assert (a + b)[1..] == a[1..] + b;
    }
  }

  lemma {:induction false} FirstOwner<T>(a: seq<Event<T>>, b: seq<Event<T>>, id: string)
    ensures OwnerOf(a + b, id) == if OwnerOf(a, id).Some? then OwnerOf(a, id) else OwnerOf(b, id)
  {
    if a == [] {
      assert a + b == b;
    } else {
      FirstOwner(a[1..], b, id);
      assert (a + b)[1..] == a[1..] + b;
    }
  }

  /** A request under a fresh id that its owner answers at once. */
  lemma {:induction false} AskAndAnswer<T(!new)>(desk: Desk<T>, id: string, owner: Owner, value: T, expired: T)
    requires id !in desk.pending && id !in desk.settled && desk.pending.Keys == desk.timers
    ensures var both := [Event<T>.Park(id, owner), Post(id, owner, value)];
      && IsSession(desk, both, expired) && OwnerOf(both, id) == Some(owner)
      && (forall other :: other != id ==> OwnerOf(both, other) == None)
      && AfterAll(desk, both, expired) == desk.(settled := desk.settled[id := value])
  {
    var park, post := Event<T>.Park(id, owner), Event<T>.Post(id, owner, value);
    var next := After(desk, park, expired);
    var end := After(next, post, expired);
    assert [park, post][1..] == [post] && [post][1..] == [];
    assert IsSession(end, [], expired) && AfterAll(end, [], expired) == end;
    assert IsSession(next, [post], expired) && AfterAll(next, [post], expired) == end;
    assert OwnerOf([post], id) == None;
    forall other | other != id ensures OwnerOf([park, post], other) == None {
      assert OwnerOf([post], other) == OwnerOf<T>([], other);
    }
    assert end.pending == desk.pending && end.timers == desk.timers;
  }
}
