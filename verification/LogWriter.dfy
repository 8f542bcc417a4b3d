/** Batched log ingest of deploy/log-writer.ts, the trim arithmetic of deployment-logs/trim.ts, and the
    log bookkeeping that ends a deploy (deploy/executor.ts). */
module LogWriter {
  import opened Text

  datatype LogRow = LogRow(seqNo: nat, stepId: string, stream: string, line: string)

  // ---- the promise chain ----

  datatype InsertState = Waiting | Inserting | Settled(stored: bool)

  /** One flush: `chain = chain.then(() => insert(rows)).catch(onError)`. */
  datatype Link = Link(rows: seq<LogRow>, state: InsertState)

  /** The writer's closure state. */
  datatype Writer = Writer(seqNo: nat, queue: seq<LogRow>, timer: bool, chain: seq<Link>, published: seq<LogRow>)

  const FRESH := Writer(0, [], false, [], [])

  function Flushed(w: Writer): Writer {
    if w.queue == [] then w.(timer := false)
    else w.(timer := false, queue := [], chain := w.chain + [Link(w.queue, Waiting)])
  }

  function Written(w: Writer, stepId: string, stream: string, line: string, batchSize: int): Writer {
    var row := LogRow(w.seqNo + 1, stepId, stream, line);
    var queued := w.(seqNo := w.seqNo + 1, published := w.published + [row], queue := w.queue + [row]);
    if |queued.queue| >= batchSize then Flushed(queued) else queued.(timer := true)
  }

  /** What can happen to a writer. Start and Settle are the promise machinery: link k starts once the
      link before it has settled, and settles by storing its rows or by failing. */
  datatype Event =
    | Write(stepId: string, stream: string, line: string)
    | TimerFires
    | Close
    | Start(k: nat)
    | Settle(k: nat, stored: bool)

  predicate Enabled(w: Writer, e: Event) {
    match e
    case Write(_, _, _) => true
    case TimerFires => w.timer
    case Close => true
    case Start(k) => k < |w.chain| && w.chain[k].state == Waiting && (k == 0 || w.chain[k - 1].state.Settled?)
    case Settle(k, _) => k < |w.chain| && w.chain[k].state == Inserting
  }

  function After(w: Writer, e: Event, batchSize: int): Writer
    requires Enabled(w, e)
  {
    match e
    case Write(stepId, stream, line) => Written(w, stepId, stream, line, batchSize)
    case TimerFires => Flushed(w.(timer := false))
    case Close => Flushed(w)
    case Start(k) => w.(chain := w.chain[k := w.chain[k].(state := Inserting)])
    case Settle(k, stored) => w.(chain := w.chain[k := w.chain[k].(state := Settled(stored))])
  }

  /** The closure createLogWriter returns, field by field. */
  class LogWriter {
    const batchSize: int
    var seqNo: nat
    var queue: seq<LogRow>
    var timer: bool
    var chain: seq<Link>
    var published: seq<LogRow>

    constructor (batchSize: int)
      ensures State() == FRESH && this.batchSize == batchSize
    {
      this.batchSize := batchSize;
      seqNo, queue, timer, chain, published := 0, [], false, [], [];
    }

    function State(): Writer
      reads this
    {
      Writer(seqNo, queue, timer, chain, published)
    }

    method Flush()
      modifies this
      ensures State() == Flushed(old(State()))
    {
      if timer {
        timer := false;
      }
      if |queue| == 0 {
        return;
      }
      var rows := queue;
      queue := [];
      chain := chain + [Link(rows, Waiting)];
    }

    method Write(stepId: string, stream: string, line: string)
      modifies this
      ensures State() == Written(old(State()), stepId, stream, line, batchSize)
    {
      seqNo := seqNo + 1;
      var row := LogRow(seqNo, stepId, stream, line);
      published := published + [row];
      queue := queue + [row];
      if |queue| >= batchSize {
        Flush();
      } else if !timer {
        timer := true;
      }
    }

    method OnTimer()
      requires timer
      modifies this
      ensures State() == After(old(State()), TimerFires, batchSize)
    {
      timer := false;
      Flush();
    }

    method Close()
      modifies this
      ensures State() == After(old(State()), Event.Close, batchSize)
    {
      Flush();
    }

    method StartInsert(k: nat)
      requires Enabled(State(), Start(k))
      modifies this
      ensures State() == After(old(State()), Start(k), batchSize)
    {
      chain := chain[k := Link(chain[k].rows, Inserting)];
    }

    method SettleInsert(k: nat, stored: bool)
      requires Enabled(State(), Settle(k, stored))
      modifies this
      ensures State() == After(old(State()), Settle(k, stored), batchSize)
    {
      chain := chain[k := Link(chain[k].rows, Settled(stored))];
    }
  }

  // ---- every interleaving ----

  ghost predicate IsRun(w: Writer, events: seq<Event>, batchSize: int)
    decreases |events|
  {
    events == [] || (Enabled(w, events[0]) && IsRun(After(w, events[0], batchSize), events[1..], batchSize))
  }

  function AfterRun(w: Writer, events: seq<Event>, batchSize: int): Writer
    requires IsRun(w, events, batchSize)
    decreases |events|
  {
    if events == [] then w else AfterRun(After(w, events[0], batchSize), events[1..], batchSize)
  }

  function Batches(chain: seq<Link>): seq<LogRow> {
    if chain == [] then [] else Batches(chain[..|chain| - 1]) + chain[|chain| - 1].rows
  }

  /** The row of an event, if it is a write, after `from` earlier ones. */
  function RowsOf(e: Event, from: nat): seq<LogRow> {
    if e.Write? then [LogRow(from + 1, e.stepId, e.stream, e.line)] else []
  }

  /** The rows of all writes, in order, numbered on from `from`. */
  function WrittenRows(events: seq<Event>, from: nat): seq<LogRow> {
    if events == [] then []
    else RowsOf(events[0], from) + WrittenRows(events[1..], from + |RowsOf(events[0], from)|)
  }

  /** The settled links come first, then at most one running, then the waiting ones. */
  ghost predicate InOrder(chain: seq<Link>) {
    forall i, j :: 0 <= i < j < |chain| && chain[j].state != Waiting ==> chain[i].state.Settled?
  }

  ghost predicate Valid(w: Writer) {
    && InOrder(w.chain)
    && (w.queue != [] <==> w.timer)
    && (forall i :: 0 <= i < |w.chain| ==> w.chain[i].rows != [])
    && Batches(w.chain) + w.queue == w.published
    && w.seqNo == |w.published|
    && (forall i :: 0 <= i < |w.published| ==> w.published[i].seqNo == i + 1)
  }

  lemma {:induction false} BatchesIgnoreState(chain: seq<Link>, k: nat, state: InsertState)
    requires k < |chain|
    ensures Batches(chain[k := chain[k].(state := state)]) == Batches(chain)
  {
    var changed := chain[k := chain[k].(state := state)];
    var n := |chain| - 1;
    if k < n {
      BatchesIgnoreState(chain[..n], k, state);
      assert changed[..n] == chain[..n][k := chain[..n][k].(state := state)];
    } else {
      assert changed[..n] == chain[..n];
    }
  }

  lemma {:induction false} FlushIsValid(w: Writer)
    requires Valid(w.(timer := w.queue != []))
    ensures Valid(Flushed(w)) && Flushed(w).published == w.published && Flushed(w).seqNo == w.seqNo
    ensures Flushed(w).queue == []
  {
    assert (w.chain + [Link(w.queue, Waiting)])[..|w.chain|] == w.chain;
    assert Batches(w.chain) + [] == Batches(w.chain);
    assert Batches(w.chain) + w.queue + [] == Batches(w.chain) + w.queue;
  }

  lemma {:induction false} WriteIsValid(w: Writer, stepId: string, stream: string, line: string, batchSize: int)
    requires Valid(w)
    ensures Valid(Written(w, stepId, stream, line, batchSize))
    ensures Written(w, stepId, stream, line, batchSize).published
         == w.published + [LogRow(w.seqNo + 1, stepId, stream, line)]
  {
    var row := LogRow(w.seqNo + 1, stepId, stream, line);
    var queued := w.(seqNo := w.seqNo + 1, published := w.published + [row], queue := w.queue + [row]);
    assert Batches(w.chain) + (w.queue + [row]) == (Batches(w.chain) + w.queue) + [row];
    assert Valid(queued.(timer := true));
    FlushIsValid(queued);
  }

  lemma {:induction false} StepIsValid(w: Writer, e: Event, batchSize: int)
    requires Valid(w) && Enabled(w, e)
    ensures Valid(After(w, e, batchSize))
    ensures After(w, e, batchSize).published == w.published + RowsOf(e, w.seqNo)
  {
    hide Batches, Written, Flushed;
    assert w.published + [] == w.published;
    match e {
      case Write(stepId, stream, line) =>
        WriteIsValid(w, stepId, stream, line, batchSize);
      case TimerFires =>
        FlushIsValid(w.(timer := false));
      case Close =>
        FlushIsValid(w);
      case Start(k) =>
        BatchesIgnoreState(w.chain, k, Inserting);
      case Settle(k, stored) =>
        BatchesIgnoreState(w.chain, k, Settled(stored));
    }
  }

  /** For every interleaving of writes, timer fires, closes, insert starts and insert outcomes: the
      batches in chain order followed by the queue are exactly the rows written, numbered 1 to n;
      the timer is armed exactly while rows are queued; batches settle in order. */
  lemma {:induction false} RunIsValid(w: Writer, events: seq<Event>, batchSize: int)
    requires Valid(w) && IsRun(w, events, batchSize)
    ensures Valid(AfterRun(w, events, batchSize))
    ensures AfterRun(w, events, batchSize).published == w.published + WrittenRows(events, w.seqNo)
    decreases |events|
  {
    if events != [] {
      var next := After(w, events[0], batchSize);
      StepIsValid(w, events[0], batchSize);
      RunIsValid(next, events[1..], batchSize);
      PlusAssociates(w.published, RowsOf(events[0], w.seqNo), WrittenRows(events[1..], next.seqNo));
    }
  }

  /** Between events less than a batch is queued, and no batch is larger than the batch size. */
  ghost predicate Small(w: Writer, batchSize: int) {
    |w.queue| < Max(1, batchSize) && forall k :: 0 <= k < |w.chain| ==> |w.chain[k].rows| <= Max(1, batchSize)
  }

  lemma {:induction false} StaysSmall(w: Writer, events: seq<Event>, batchSize: int)
    requires Small(w, batchSize) && IsRun(w, events, batchSize)
    ensures Small(AfterRun(w, events, batchSize), batchSize)
    decreases |events|
  {
    if events != [] {
      StaysSmall(After(w, events[0], batchSize), events[1..], batchSize);
    }
  }

  /** A full batch is never left to the timer: over all interleavings fewer rows than the batch size are queued, and
      a batch holds at least one row and at most the batch size. */
  lemma {:induction false} FullBatchesAreFlushed(events: seq<Event>, batchSize: int)
    requires batchSize >= 1 && IsRun(FRESH, events, batchSize)
    ensures var end := AfterRun(FRESH, events, batchSize);
      && |end.queue| < batchSize
      && forall k :: 0 <= k < |end.chain| ==> 1 <= |end.chain[k].rows| <= batchSize
  {
    StaysSmall(FRESH, events, batchSize);
    FreshRun(events, batchSize);
  }

  lemma {:induction false} FreshRun(events: seq<Event>, batchSize: int)
    requires IsRun(FRESH, events, batchSize)
    ensures var end := AfterRun(FRESH, events, batchSize);
            && Valid(end)
            && end.published == Batches(end.chain) + end.queue == WrittenRows(events, 0)
            && end.seqNo == |WrittenRows(events, 0)|
  {
    RunIsValid(FRESH, events, batchSize);
    assert [] + WrittenRows(events, 0) == WrittenRows(events, 0);
  }

  /** Inserts never overlap, and one that runs has everything before it settled. */
  lemma {:induction false} InsertsNeverOverlap(events: seq<Event>, batchSize: int, i: nat, j: nat)
    requires IsRun(FRESH, events, batchSize)
    requires var chain := AfterRun(FRESH, events, batchSize).chain;
             i < |chain| && j < |chain| && chain[i].state == Inserting && chain[j].state == Inserting
    ensures i == j
  {
    FreshRun(events, batchSize);
  }

  // ---- closing, storing and trimming ----

  lemma {:induction false} RunAppend(w: Writer, a: seq<Event>, b: seq<Event>, batchSize: int)
    ensures IsRun(w, a + b, batchSize) <==> IsRun(w, a, batchSize) && IsRun(AfterRun(w, a, batchSize), b, batchSize)
    ensures IsRun(w, a + b, batchSize) ==>
            AfterRun(w, a + b, batchSize) == AfterRun(AfterRun(w, a, batchSize), b, batchSize)
    decreases |a|
  {
    if a == [] {
      assert a + b == b;
    } else {
      assert (a + b)[1..] == a[1..] + b && (a + b)[0] == a[0];
      if Enabled(w, a[0]) {
        RunAppend(After(w, a[0], batchSize), a[1..], b, batchSize);
      }
    }
  }

  /** The links of a chain stay where they are, with their rows; only their states change. */
  ghost predicate Extends(chain: seq<Link>, longer: seq<Link>) {
    |chain| <= |longer| && forall k :: 0 <= k < |chain| ==> longer[k].rows == chain[k].rows
  }

  lemma {:induction false} ChainExtends(w: Writer, events: seq<Event>, batchSize: int)
    requires IsRun(w, events, batchSize)
    ensures Extends(w.chain, AfterRun(w, events, batchSize).chain)
    decreases |events|
  {
    if events != [] {
      ChainExtends(After(w, events[0], batchSize), events[1..], batchSize);
    }
  }

  predicate NoWrites(events: seq<Event>) {
    forall k :: 0 <= k < |events| ==> !events[k].Write?
  }

  /** With an empty queue and nothing written, no batch is added and the queue stays empty. */
  lemma {:induction false} EmptyStaysEmpty(w: Writer, events: seq<Event>, batchSize: int)
    requires IsRun(w, events, batchSize) && w.queue == [] && NoWrites(events)
    ensures AfterRun(w, events, batchSize).queue == [] && |AfterRun(w, events, batchSize).chain| == |w.chain|
    decreases |events|
  {
    if events != [] {
      EmptyStaysEmpty(After(w, events[0], batchSize), events[1..], batchSize);
    }
  }

  lemma {:induction false} SameBatches(chain: seq<Link>, longer: seq<Link>)
    requires Extends(chain, longer)
    ensures Batches(longer[..|chain|]) == Batches(chain)
  {
    if chain != [] {
      var n := |chain| - 1;
      assert Extends(chain[..n], longer);
      SameBatches(chain[..n], longer);
      assert longer[..n + 1][..n] == longer[..n];
    }
  }

  /** The rows in the table: those of the batches that were stored. */
  function Stored(chain: seq<Link>): seq<LogRow> {
    if chain == [] then []
    else
      var last := chain[|chain| - 1];
      Stored(chain[..|chain| - 1]) + (if last.state == Settled(true) then last.rows else [])
  }

  /** The rows lost with failed batches. */
  function Lost(chain: seq<Link>): seq<LogRow> {
    if chain == [] then []
    else
      var last := chain[|chain| - 1];
      Lost(chain[..|chain| - 1]) + (if last.state == Settled(false) then last.rows else [])
  }

  lemma {:induction false} StoredOrLost(chain: seq<Link>)
    requires forall i :: 0 <= i < |chain| ==> chain[i].state.Settled?
    ensures multiset(Batches(chain)) == multiset(Stored(chain)) + multiset(Lost(chain))
    ensures Lost(chain) == [] ==> Stored(chain) == Batches(chain)
  {
    if chain != [] {
      StoredOrLost(chain[..|chain| - 1]);
    }
  }

  /** The state a close leaves: everything written is in the chain. */
  lemma {:induction false} AtClose(before: seq<Event>, batchSize: int)
    requires IsRun(FRESH, before + [Close], batchSize)
    ensures var closed := AfterRun(FRESH, before + [Close], batchSize);
      Valid(closed) && closed.queue == [] && Batches(closed.chain) == WrittenRows(before, 0)
  {
    RunAppend(FRESH, before, [Close], batchSize);
    var w := AfterRun(FRESH, before, batchSize);
    assert [Close][1..] == [];
    FreshRun(before, batchSize);
    FlushIsValid(w);
    assert Batches(Flushed(w).chain) + [] == Batches(Flushed(w).chain);
  }

  /** A close drains: once the promise it returned has settled, every batch that existed at the close has
      settled, and those batches are exactly the rows written before it, each stored or lost with its own
      batch. If nothing was written since, the queue is empty, the timer is off and no other batch exists. */
  lemma {:induction false} CloseDrains(before: seq<Event>, later: seq<Event>, batchSize: int)
    requires IsRun(FRESH, before + [Close] + later, batchSize)
    ensures IsRun(FRESH, before + [Close], batchSize)
    ensures var closed := AfterRun(FRESH, before + [Close], batchSize);
      var end := AfterRun(FRESH, before + [Close] + later, batchSize);
      var n := |closed.chain|;
      && n <= |end.chain|
      && (n == 0 || end.chain[n - 1].state.Settled? ==>
        && (forall k :: 0 <= k < n ==> end.chain[k].state.Settled?)
        && Batches(end.chain[..n]) == WrittenRows(before, 0)
        && multiset(WrittenRows(before, 0)) == multiset(Stored(end.chain[..n])) + multiset(Lost(end.chain[..n]))
        && (NoWrites(later) ==> end.queue == [] && !end.timer && n == |end.chain| && end.chain[..n] == end.chain))
  {
    hide IsRun, AfterRun, WrittenRows, Batches, Stored, Lost;
    var until := before + [Close];
    RunAppend(FRESH, until, later, batchSize);
    AtClose(before, batchSize);
    RunIsValid(AfterRun(FRESH, until, batchSize), later, batchSize);
    var closed, end := AfterRun(FRESH, until, batchSize), AfterRun(FRESH, until + later, batchSize);
    ChainExtends(closed, later, batchSize);
    SameBatches(closed.chain, end.chain);
    if closed.chain == [] || end.chain[|closed.chain| - 1].state.Settled? {
      StoredOrLost(end.chain[..|closed.chain|]);
    }
    if NoWrites(later) {
      EmptyStaysEmpty(closed, later, batchSize);
    }
  }

  /** What the finalising code finds after it awaited close: every row written is in a settled batch. */
  lemma {:induction false} ClosedRun(before: seq<Event>, later: seq<Event>, batchSize: int)
    requires IsRun(FRESH, before + [Close] + later, batchSize) && NoWrites(later)
    requires IsRun(FRESH, before + [Close], batchSize)
    requires var n := |AfterRun(FRESH, before + [Close], batchSize).chain|;
      var chain := AfterRun(FRESH, before + [Close] + later, batchSize).chain;
      n <= |chain| && (n == 0 || chain[n - 1].state.Settled?)
    ensures var end := AfterRun(FRESH, before + [Close] + later, batchSize);
      && (forall k :: 0 <= k < |end.chain| ==> end.chain[k].state.Settled?)
      && Batches(end.chain) == WrittenRows(before, 0)
      && end.seqNo == |WrittenRows(before, 0)|
      && (forall k :: 0 <= k < end.seqNo ==> WrittenRows(before, 0)[k].seqNo == k + 1)
  {
    CloseDrains(before, later, batchSize);
    FreshRun(before + [Close] + later, batchSize);
    var end := AfterRun(FRESH, before + [Close] + later, batchSize);
    assert Batches(end.chain) + [] == Batches(end.chain);
  }

  datatype TrimDecision = TrimDecision(deleteBelowSeq: Option<int>, truncated: bool)

  function ComputeTrim(maxSeq: int, currentRowCount: int, lineCap: int): TrimDecision {
    if lineCap <= 0 || currentRowCount <= lineCap then TrimDecision(None, false)
    else TrimDecision(Some(maxSeq - lineCap + 1), true)
  }

  predicate IsTrimmed(r: LogRow, decision: TrimDecision) {
    decision.deleteBelowSeq.Some? && r.seqNo < decision.deleteBelowSeq.value
  }

  /** DELETE ... WHERE seq < below. */
  function Trimmed(rows: seq<LogRow>, decision: TrimDecision): seq<LogRow> {
    if rows == [] then []
    else if IsTrimmed(rows[0], decision) then Trimmed(rows[1..], decision)
    else [rows[0]] + Trimmed(rows[1..], decision)
  }

  lemma {:induction false} TrimmedNumbered(rows: seq<LogRow>, from: nat, decision: TrimDecision)
    requires forall i :: 0 <= i < |rows| ==> rows[i].seqNo == from + i + 1
    ensures Trimmed(rows, decision)
         == rows[Max(0, Min(|rows|, decision.deleteBelowSeq.GetOr(0) - from - 1))..]
  {
    if rows != [] {
      TrimmedNumbered(rows[1..], from + 1, decision);
      if decision.deleteBelowSeq.GetOr(0) > from + 1 {
        var k := Min(|rows|, decision.deleteBelowSeq.GetOr(0) - from - 1);
        assert rows[1..][k - 1..] == rows[k..];
      } else {
        assert rows == [rows[0]] + rows[1..];
      }
    }
  }

  /** The finalising trim of a run that lost no batch keeps exactly the newest min(n, cap) rows and
      records their number; the truncated flag says whether older ones went. */
  lemma {:induction false} TrimKeepsNewest(before: seq<Event>, later: seq<Event>, batchSize: int, cap: int)
    requires cap > 0
    requires IsRun(FRESH, before + [Close] + later, batchSize) && NoWrites(later)
    requires IsRun(FRESH, before + [Close], batchSize)
    requires var n := |AfterRun(FRESH, before + [Close], batchSize).chain|;
      var chain := AfterRun(FRESH, before + [Close] + later, batchSize).chain;
      n <= |chain| && (n == 0 || chain[n - 1].state.Settled?)
    requires Lost(AfterRun(FRESH, before + [Close] + later, batchSize).chain) == []
    ensures var end := AfterRun(FRESH, before + [Close] + later, batchSize);
            var (rows, total) := (WrittenRows(before, 0), end.seqNo);
            var decision := ComputeTrim(total, total, cap);
            && total == |rows|
            && Trimmed(Stored(end.chain), decision) == rows[total - Min(total, cap)..]
            && |Trimmed(Stored(end.chain), decision)| == Min(total, cap)
            && (decision.truncated <==> total > cap)
  {
    ClosedRun(before, later, batchSize);
    StoredOrLost(AfterRun(FRESH, before + [Close] + later, batchSize).chain);
    TrimNumbered(WrittenRows(before, 0), cap);
  }

  lemma {:induction false} TrimNumbered(rows: seq<LogRow>, cap: int)
    requires cap > 0 && forall i :: 0 <= i < |rows| ==> rows[i].seqNo == i + 1
    ensures var decision := ComputeTrim(|rows|, |rows|, cap);
            && Trimmed(rows, decision) == rows[|rows| - Min(|rows|, cap)..]
            && (decision.truncated <==> |rows| > cap)
  {
    TrimmedNumbered(rows, 0, ComputeTrim(|rows|, |rows|, cap));
  }

  lemma {:induction false} TrimmedConcat(a: seq<LogRow>, b: seq<LogRow>, decision: TrimDecision)
    ensures Trimmed(a + b, decision) == Trimmed(a, decision) + Trimmed(b, decision)
  {
    if a == [] {
      assert a + b == b;
    } else {
      TrimmedConcat(a[1..], b, decision);
      assert (a + b)[1..] == a[1..] + b && (a + b)[0] == a[0];
      if !IsTrimmed(a[0], decision) {
        PlusAssociates([a[0]], Trimmed(a[1..], decision), Trimmed(b, decision));
      }
    }
  }

  lemma {:induction false} TrimmedSplit(chain: seq<Link>, decision: TrimDecision)
    requires forall i :: 0 <= i < |chain| ==> chain[i].state.Settled?
    ensures |Trimmed(Batches(chain), decision)| == |Trimmed(Stored(chain), decision)| + |Trimmed(Lost(chain), decision)|
  {
    if chain != [] {
      var front, last := chain[..|chain| - 1], chain[|chain| - 1];
      TrimmedSplit(front, decision);
      TrimmedConcat(Batches(front), last.rows, decision);
      TrimmedConcat(Stored(front), if last.state == Settled(true) then last.rows else [], decision);
      TrimmedConcat(Lost(front), if last.state == Settled(false) then last.rows else [], decision);
    }
  }

  lemma {:induction false} TrimmedEmpty(rows: seq<LogRow>, decision: TrimDecision)
    ensures Trimmed(rows, decision) == [] <==> forall k :: 0 <= k < |rows| ==> IsTrimmed(rows[k], decision)
  {
    if rows == [] {
      assert Trimmed(rows, decision) == [];
    } else {
      TrimmedEmpty(rows[1..], decision);
      if IsTrimmed(rows[0], decision) {
        assert Trimmed(rows, decision) == Trimmed(rows[1..], decision);
        forall k | 0 <= k < |rows| && Trimmed(rows, decision) == [] ensures IsTrimmed(rows[k], decision) {
          assert k > 0 ==> rows[k] == rows[1..][k - 1];
        }
        forall k | 0 <= k < |rows| - 1 ensures rows[1..][k] == rows[k + 1] {
        }
      } else {
        assert Trimmed(rows, decision) == [rows[0]] + Trimmed(rows[1..], decision);
      }
    }
  }

  /** With failed batches the recorded line count is still the number of rows left in the table exactly
      when every lost row is older than the newest cap rows. */
  lemma {:induction false} BookkeepingExact(before: seq<Event>, later: seq<Event>, batchSize: int, cap: int)
    requires cap > 0
    requires IsRun(FRESH, before + [Close] + later, batchSize) && NoWrites(later)
    requires IsRun(FRESH, before + [Close], batchSize)
    requires var n := |AfterRun(FRESH, before + [Close], batchSize).chain|;
      var chain := AfterRun(FRESH, before + [Close] + later, batchSize).chain;
      n <= |chain| && (n == 0 || chain[n - 1].state.Settled?)
    ensures var end := AfterRun(FRESH, before + [Close] + later, batchSize);
            var total := end.seqNo;
            |Trimmed(Stored(end.chain), ComputeTrim(total, total, cap))| == Min(total, cap)
            <==> forall r :: r in Lost(end.chain) ==> r.seqNo <= total - cap
  {
    ClosedRun(before, later, batchSize);
    CountOfSettled(AfterRun(FRESH, before + [Close] + later, batchSize).chain, cap);
  }

  lemma {:induction false} CountOfSettled(chain: seq<Link>, cap: int)
    requires cap > 0 && (forall i :: 0 <= i < |chain| ==> chain[i].state.Settled?)
    requires forall i :: 0 <= i < |Batches(chain)| ==> Batches(chain)[i].seqNo == i + 1
    ensures var total := |Batches(chain)|;
            |Trimmed(Stored(chain), ComputeTrim(total, total, cap))| == Min(total, cap)
            <==> forall r :: r in Lost(chain) ==> r.seqNo <= total - cap
  {
    var total := |Batches(chain)|;
    var decision := ComputeTrim(total, total, cap);
    TrimNumbered(Batches(chain), cap);
    TrimmedSplit(chain, decision);
    TrimmedEmpty(Lost(chain), decision);
    LostAreWritten(chain);
    assert forall k :: 0 <= k < |Lost(chain)| ==> Lost(chain)[k] in Lost(chain);
  }

  lemma {:induction false} LostAreWritten(chain: seq<Link>)
    ensures forall r :: r in Lost(chain) ==> r in Batches(chain)
  {
    if chain != [] {
      LostAreWritten(chain[..|chain| - 1]);
    }
  }

  // ---- no batch is stuck ----

  function StepsLeft(state: InsertState): nat {
    match state
    case Waiting => 2
    case Inserting => 1
    case Settled(_) => 0
  }

  /** From link k on, whatever is not settled yet can start and be stored, in order. */
  lemma {:induction false} SettleFrom(w: Writer, k: nat, batchSize: int) returns (more: seq<Event>)
    requires k <= |w.chain| && InOrder(w.chain) && forall i :: 0 <= i < k ==> w.chain[i].state.Settled?
    ensures IsRun(w, more, batchSize)
    ensures forall i :: 0 <= i < |more| ==> more[i].Start? || (more[i].Settle? && more[i].stored)
    ensures var end := AfterRun(w, more, batchSize);
      && end == w.(chain := end.chain) && |end.chain| == |w.chain|
      && forall i :: 0 <= i < |w.chain| ==>
           end.chain[i] == if w.chain[i].state.Settled? then w.chain[i] else Link(w.chain[i].rows, Settled(true))
    decreases |w.chain| - k, if k == |w.chain| then 0 else StepsLeft(w.chain[k].state)
  {
    more := [];
    if k < |w.chain| {
      if w.chain[k].state.Settled? {
        more := SettleFrom(w, k + 1, batchSize);
      } else {
        var e := if w.chain[k].state == Waiting then Start(k) else Settle(k, true);
        assert Enabled(w, e);
        var rest := SettleFrom(After(w, e, batchSize), k, batchSize);
        more := [e] + rest;
        assert more[1..] == rest;
      }
    }
  }

  /** Every run can settle: at any point the timer, if it is armed, and the promises alone, with no failure of the
      database, store everything that is not settled yet, and nothing stays queued. */
  lemma {:induction false} EveryRunCanSettle(events: seq<Event>, batchSize: int) returns (more: seq<Event>)
    requires IsRun(FRESH, events, batchSize)
    ensures IsRun(FRESH, events + more, batchSize)
    ensures forall i :: 0 <= i < |more| ==>
      more[i].TimerFires? || more[i].Start? || (more[i].Settle? && more[i].stored)
    ensures var now, end := AfterRun(FRESH, events, batchSize), AfterRun(FRESH, events + more, batchSize);
      && end.queue == [] && !end.timer && Batches(end.chain) == WrittenRows(events, 0)
      && forall k :: 0 <= k < |end.chain| ==>
           end.chain[k].state == Settled(!(k < |now.chain| && now.chain[k].state == Settled(false)))
  {
    hide WrittenRows, Batches;
    FreshRun(events, batchSize);
    var now := AfterRun(FRESH, events, batchSize);
    var fire := if now.timer then [TimerFires] else [];
    assert fire != [] ==> fire[1..] == [] && IsRun(After(now, TimerFires, batchSize), [], batchSize);
    assert IsRun(now, fire, batchSize);
    RunAppend(FRESH, events, fire, batchSize);
    FreshRun(events + fire, batchSize);
    var fired := AfterRun(now, fire, batchSize);
    assert fired == Flushed(now) == AfterRun(FRESH, events + fire, batchSize);
    var rest := SettleFrom(fired, 0, batchSize);
    RunAppend(FRESH, events + fire, rest, batchSize);
    more := fire + rest;
    PlusAssociates(events, fire, rest);
    FreshRun(events + more, batchSize);
    NoRowsAdded(events, more, 0);
    var end := AfterRun(FRESH, events + more, batchSize);
    assert Batches(end.chain) + [] == Batches(end.chain);
  }

  lemma {:induction false} NoRow(e: Event, from: nat)
    requires !e.Write?
    ensures RowsOf(e, from) == []
  {
  }

  lemma {:induction false} NoRowsAdded(events: seq<Event>, more: seq<Event>, from: nat)
    requires NoWrites(more)
    ensures WrittenRows(events + more, from) == WrittenRows(events, from)
  {
    hide RowsOf;
    if events != [] {
      NoRowsAdded(events[1..], more, from + |RowsOf(events[0], from)|);
      assert (events + more)[1..] == events[1..] + more;
    } else if more != [] {
      assert RowsOf(more[0], from) == [] by { NoRow(more[0], from); }
      NoRowsAdded([], more[1..], from);
      assert events + more == more && [] + more[1..] == more[1..];
    }
  }
}
