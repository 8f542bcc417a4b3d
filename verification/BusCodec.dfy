/** The NOTIFY payload codec of realtime/pg-bridge.ts. */
module BusCodec {
  import opened Text
  import opened Json

  datatype LogFrame = LogFrame(seqNo: nat, stream: string, line: string, at: string)

  datatype BusEvent =
    | LogEvent(deploymentId: string, frame: LogFrame)
    | StatusEvent(deploymentId: string, status: string)

  const MAX_PAYLOAD := 7800
  const TRUNCATED := "…"

  // ---- encode ----

  function FrameJson(f: LogFrame): Value {
    Object([Member("seq", Number(f.seqNo)), Member("stream", String(f.stream)),
            Member("line", String(f.line)), Member("at", String(f.at))])
  }

  /** { origin, ...event } */
  function EventJson(e: BusEvent, origin: string): Value {
    match e
    case LogEvent(id, frame) =>
      Object([Member("origin", String(origin)), Member("kind", String("log")),
              Member("deploymentId", String(id)), Member("frame", FrameJson(frame))])
    case StatusEvent(id, status) =>
      Object([Member("origin", String(origin)), Member("kind", String("status")),
              Member("deploymentId", String(id)), Member("status", String(status))])
  }

  function WithLine(e: BusEvent, line: string): BusEvent
    requires e.LogEvent?
  {
    e.(frame := e.frame.(line := line))
  }

  function EncodeBusEvent(e: BusEvent, origin: string): string {
    var payload := Print(EventJson(e, origin));
    if |payload| > MAX_PAYLOAD && e.LogEvent? then
      var overshoot := |payload| - MAX_PAYLOAD;
      var line := e.frame.line;
      var trimmed := line[..Max(0, |line| - overshoot - |TRUNCATED|)] + TRUNCATED;
      Print(EventJson(WithLine(e, trimmed), origin))
    else payload
  }

  // ---- decode ----

  /** A property of a parsed object: the last one of that name. */
  function Field(members: seq<Member>, key: string): Option<Value> {
    if members == [] then None
    else if members[|members| - 1].key == key then Some(members[|members| - 1].value)
    else Field(members[..|members| - 1], key)
  }

  predicate Truthy(v: Option<Value>): (truthy: bool)
    ensures truthy <==> v.Some? && v.value !in {Null, Bool(false), Number(0), String("")}
  {
    match v
    case None => false
    case Some(Null) => false
    case Some(Bool(b)) => b
    case Some(Number(n)) => n != 0
    case Some(String(s)) => s != ""
    case Some(_) => true
  }

  /** What decode hands on: the fields as parsed. */
  datatype Heard = HeardLog(deploymentId: Value, frame: Value) | HeardStatus(deploymentId: Value, status: Value)

  function DecodeMembers(members: seq<Member>, selfOrigin: string): Option<Heard> {
    var origin, kind, id := Field(members, "origin"), Field(members, "kind"), Field(members, "deploymentId");
    var frame, status := Field(members, "frame"), Field(members, "status");
    if !Truthy(origin) || origin == Some(String(selfOrigin)) then None
    else if kind == Some(String("log")) && Truthy(id) && Truthy(frame) then Some(HeardLog(id.value, frame.value))
    else if kind == Some(String("status")) && Truthy(id) && Truthy(status)
      then Some(HeardStatus(id.value, status.value))
    else None
  }

  /** A payload that is not a JSON object has none of the fields, or makes reading them throw: both give null. */
  function DecodeBusEvent(payload: string, selfOrigin: string): Option<Heard> {
    match Parse(payload)
    case Some(Object(members)) => DecodeMembers(members, selfOrigin)
    case _ => None
  }

  // ---- what a receiver hears ----

  function LineAfter(e: BusEvent, origin: string): string
    requires e.LogEvent?
  {
    var size, line := |Print(EventJson(e, origin))|, e.frame.line;
    if size > MAX_PAYLOAD then line[..Max(0, |line| - (size - MAX_PAYLOAD) - 1)] + TRUNCATED else line
  }

  /** The event as it travels: unchanged when it fits. */
  function Shortened(e: BusEvent, origin: string): BusEvent {
    if e.LogEvent? then WithLine(e, LineAfter(e, origin)) else e
  }

  lemma {:induction false} EncodeIsShortened(e: BusEvent, origin: string)
    ensures EncodeBusEvent(e, origin) == Print(EventJson(Shortened(e, origin), origin))
  {
    assert |TRUNCATED| == 1;
    if e.LogEvent? {
      assert WithLine(e, e.frame.line) == e;
    }
  }

  /** Events whose fields are not empty strings, which decode would take for missing. */
  predicate Sendable(e: BusEvent) {
    e.deploymentId != "" && (e.StatusEvent? ==> e.status != "")
  }

  function HeardOf(e: BusEvent): Heard {
    match e
    case LogEvent(id, frame) => HeardLog(String(id), FrameJson(frame))
    case StatusEvent(id, status) => HeardStatus(String(id), String(status))
  }

  lemma {:induction false} FieldsOfFour(a: Member, b: Member, c: Member, d: Member, key: string)
    ensures Field([a, b, c, d], key)
         == if d.key == key then Some(d.value) else if c.key == key then Some(c.value)
            else if b.key == key then Some(b.value) else if a.key == key then Some(a.value) else None
  {
    assert [a, b, c, d][..3] == [a, b, c] && [a, b, c][..2] == [a, b] && [a, b][..1] == [a] && [a][..0] == [];
    assert Field([a], key) == if a.key == key then Some(a.value) else None;
    assert Field([a, b], key) == if b.key == key then Some(b.value) else Field([a], key);
    assert Field([a, b, c], key) == if c.key == key then Some(c.value) else Field([a, b], key);
  }

  lemma {:induction false} DecodeOfFour(origin: string, kind: string, id: string, key: string, body: Value)
    requires key == "frame" || key == "status"
    ensures var m := [Member("origin", String(origin)), Member("kind", String(kind)),
                      Member("deploymentId", String(id)), Member(key, body)];
            && Field(m, "origin") == Some(String(origin)) && Field(m, "kind") == Some(String(kind))
            && Field(m, "deploymentId") == Some(String(id))
            && Field(m, "frame") == (if key == "frame" then Some(body) else None)
            && Field(m, "status") == (if key == "status" then Some(body) else None)
  {
    var a, b, c, d := Member("origin", String(origin)), Member("kind", String(kind)),
                      Member("deploymentId", String(id)), Member(key, body);
    DistinctKeys();
    FieldsOfFour(a, b, c, d, "origin");
    FieldsOfFour(a, b, c, d, "kind");
    FieldsOfFour(a, b, c, d, "deploymentId");
    FieldsOfFour(a, b, c, d, "frame");
    FieldsOfFour(a, b, c, d, "status");
  }

  lemma {:induction false} DistinctKeys()
    ensures "origin" != "kind" && "origin" != "deploymentId" && "origin" != "frame" && "origin" != "status"
    ensures "kind" != "deploymentId" && "kind" != "frame" && "kind" != "status"
    ensures "deploymentId" != "frame" && "deploymentId" != "status" && "frame" != "status"
    ensures "log" != "status"
  {
    assert |"origin"| == 6 && |"kind"| == 4 && |"deploymentId"| == 12 && |"frame"| == 5 && |"status"| == 6;
    assert "origin"[0] == 'o' && "status"[0] == 's';
    assert |"log"| == 3;
  }

  lemma {:induction false} DecodeOfLog(id: string, frame: LogFrame, origin: string, self: string)
    ensures DecodeMembers(EventJson(LogEvent(id, frame), origin).members, self)
         == if origin == "" || origin == self || id == "" then None else Some(HeardLog(String(id), FrameJson(frame)))
  {
    DistinctKeys();
    DecodeOfFour(origin, "log", id, "frame", FrameJson(frame));
  }

  lemma {:induction false} DecodeOfStatus(id: string, status: string, origin: string, self: string)
    ensures DecodeMembers(EventJson(StatusEvent(id, status), origin).members, self)
         == if origin == "" || origin == self || id == "" || status == "" then None
            else Some(HeardStatus(String(id), String(status)))
  {
    DistinctKeys();
    DecodeOfFour(origin, "status", id, "status", String(status));
  }

  /** Decoding what another process encoded gives the event as it travels; a process drops its own
      payloads. Exactly the events with an empty id, an empty status or an empty origin are lost. */
  lemma {:induction false} DecodeOfEncode(e: BusEvent, origin: string, self: string)
    ensures DecodeBusEvent(EncodeBusEvent(e, origin), self)
         == if origin == "" || origin == self || !Sendable(e) then None else Some(HeardOf(Shortened(e, origin)))
  {
    EncodeIsShortened(e, origin);
    var s := Shortened(e, origin);
    ParseOfPrint(EventJson(s, origin));
    match s
    case LogEvent(id, frame) => DecodeOfLog(id, frame, origin, self);
    case StatusEvent(id, status) => DecodeOfStatus(id, status, origin, self);
  }

  // ---- the length bound ----

  lemma {:induction false} ReplacedMember(members: seq<Member>, i: nat, v: Value)
    requires i < |members|
    ensures |PrintMembers(members[i := members[i].(value := v)])|
         == |PrintMembers(members)| - |Print(members[i].value)| + |Print(v)|
  {
    var changed := members[i := members[i].(value := v)];
    if i == 0 {
      assert changed[1..] == members[1..];
      MembersLength(members);
      MembersLength(changed);
    } else {
      ReplacedMember(members[1..], i - 1, v);
      assert changed[1..] == members[1..][i - 1 := members[1..][i - 1].(value := v)];
      MembersLength(members);
      MembersLength(changed);
    }
  }

  lemma {:induction false} MembersLength(members: seq<Member>)
    requires members != []
    ensures |PrintMembers(members)|
         == |PrintString(members[0].key)| + 1 + |Print(members[0].value)|
            + (if |members| == 1 then 0 else 1 + |PrintMembers(members[1..])|)
  {
  }

  /** The payload without its line. */
  function Envelope(e: BusEvent, origin: string): nat
    requires e.LogEvent?
  {
    |Print(EventJson(WithLine(e, ""), origin))|
  }

  lemma {:induction false} PayloadLength(e: BusEvent, line: string, origin: string)
    requires e.LogEvent?
    ensures |Print(EventJson(WithLine(e, line), origin))| == Envelope(e, origin) + |Escape(line)|
  {
    var f := e.frame;
    var frame := [Member("seq", Number(f.seqNo)), Member("stream", String(f.stream)),
                  Member("line", String("")), Member("at", String(f.at))];
    FrameLength(frame, line);
    var outer := [Member("origin", String(origin)), Member("kind", String("log")),
                  Member("deploymentId", String(e.deploymentId)), Member("frame", Object(frame))];
    var framed := frame[2 := frame[2].(value := String(line))];
    ReplacedMember(outer, 3, Object(framed));
    assert FrameJson(f.(line := "")) == Object(frame);
    assert framed == [Member("seq", Number(f.seqNo)), Member("stream", String(f.stream)),
                      Member("line", String(line)), Member("at", String(f.at))];
    assert EventJson(WithLine(e, line), origin) == Object(outer[3 := outer[3].(value := Object(framed))]);
    assert EventJson(WithLine(e, ""), origin) == Object(outer);
  }

  lemma {:induction false} FrameLength(frame: seq<Member>, line: string)
    requires |frame| == 4 && frame[2].value == String("")
    ensures |Print(Object(frame[2 := frame[2].(value := String(line))]))|
         == |Print(Object(frame))| + |Escape(line)|
  {
    ReplacedMember(frame, 2, String(line));
    assert |Print(String(line))| == 2 + |Escape(line)| && |Print(String(""))| == 2;
  }

  lemma {:induction false} EscapeOfConcat(a: string, b: string)
    ensures |Escape(a + b)| == |Escape(a)| + |Escape(b)|
  {
    hide EscapeChar;
    if a == "" {
      assert a + b == b;
    } else {
      EscapeOfConcat(a[1..], b);
      assert (a + b)[1..] == a[1..] + b && (a + b)[0] == a[0];
    }
  }

  /** Cutting d characters off a line cuts at least d characters off its escaped form. */
  lemma {:induction false} CutShortens(line: string, keep: nat)
    requires keep <= |line|
    ensures |Escape(line[..keep])| <= |Escape(line)| - (|line| - keep)
  {
    assert line == line[..keep] + line[keep..];
    EscapeOfConcat(line[..keep], line[keep..]);
  }

  lemma {:induction false} EscapeOfEllipsis()
    ensures |Escape(TRUNCATED)| == 1
  {
    assert TRUNCATED[1..] == "";
  }

  /** The bound: a log payload has at most 7800 code units exactly when its envelope leaves room for
      one, whatever the escape widths of the line's characters. (An envelope of exactly 7800 fits only
      with an empty line.) */
  lemma {:induction false} PayloadFits(e: BusEvent, origin: string)
    requires e.LogEvent?
    ensures |EncodeBusEvent(e, origin)| <= 7800
            <==> Envelope(e, origin) < 7800 || (Envelope(e, origin) == 7800 && e.frame.line == "")
  {
    var line, env := e.frame.line, Envelope(e, origin);
    EncodeIsShortened(e, origin);
    assert WithLine(e, line) == e;
    PayloadLength(e, line, origin);
    var size := env + |Escape(line)|;
    if size > MAX_PAYLOAD {
      var keep := Max(0, |line| - (size - MAX_PAYLOAD) - 1);
      PayloadLength(e, line[..keep] + TRUNCATED, origin);
      EscapeOfConcat(line[..keep], TRUNCATED);
      EscapeOfEllipsis();
      CutShortens(line, keep);
      assert keep == 0 ==> line[..keep] == "";
    }
  }

  /** A payload that does not fit keeps its deployment, seq, stream and time; its line becomes a
      prefix of the line and the ellipsis. */
  lemma {:induction false} LongLinesKeepTheirFrame(e: BusEvent, origin: string)
    requires e.LogEvent?
    ensures var s := Shortened(e, origin);
            && s.LogEvent? && s.deploymentId == e.deploymentId
            && s.frame.seqNo == e.frame.seqNo && s.frame.stream == e.frame.stream && s.frame.at == e.frame.at
            && var size, line := |Print(EventJson(e, origin))|, e.frame.line;
            && (size <= 7800 ==> s == e)
            && (7800 < size <= 7800 + |line| - 1 ==> s.frame.line == line[..|line| - 1 - (size - 7800)] + "…")
            && (7800 + |line| <= size && size > 7800 ==> s.frame.line == "…")
  {
    var size, line := |Print(EventJson(e, origin))|, e.frame.line;
    if size > MAX_PAYLOAD {
      assert line[..0] + "…" == "…";
    } else {
      assert WithLine(e, line) == e;
    }
  }

  /** The frame a listener gets has the frame's own sequence number, stream, line and time, by name. */
  lemma {:induction false} FrameReads(f: LogFrame)
    ensures FrameJson(f).Object?
    ensures var members := FrameJson(f).members;
      && Field(members, "seq") == Some(Number(f.seqNo)) && Field(members, "stream") == Some(String(f.stream))
      && Field(members, "line") == Some(String(f.line)) && Field(members, "at") == Some(String(f.at))
  {
    var a, b := Member("seq", Number(f.seqNo)), Member("stream", String(f.stream));
    var c, d := Member("line", String(f.line)), Member("at", String(f.at));
    FieldsOfFour(a, b, c, d, "seq");
    FieldsOfFour(a, b, c, d, "stream");
    FieldsOfFour(a, b, c, d, "line");
    FieldsOfFour(a, b, c, d, "at");
    KeysDiffer();
  }

  lemma {:induction false} KeysDiffer()
    ensures "seq" != "stream" && "seq" != "line" && "seq" != "at" && "stream" != "line" && "stream" != "at"
    ensures "line" != "at"
  {
    assert |"seq"| == 3 && |"stream"| == 6 && |"line"| == 4 && |"at"| == 2;
  }
}
