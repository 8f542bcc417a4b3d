/** A deployment row and everything that touches it: redeliveries of its job, the pipeline that claims it
    (deploy/executor.ts), cancel requests (deploy/cancel-registry.ts, services/deployments.service.ts), process
    crashes and the boot sweep (deploy/sweep.ts). Every database statement is one step; any interleaving may
    happen. */
module DeployProtocol {
  import opened Text

  datatype Status = Queued | Running | Succeeded | Failed | Cancelled

  datatype StepStatus = StepRunning | StepSucceeded | StepFailed

  /** The row, its steps, and whether some cancel request for it was accepted. */
  datatype Row = Row(status: Status, steps: seq<StepStatus>, cancelAccepted: bool)

  predicate Terminal(s: Status) {
    s.Succeeded? || s.Failed? || s.Cancelled?
  }

  // ---- one run of executeDeploy ----

  /** Where a run is. Escaped: it threw between the claim and the try, so no handler ran. Clearing is the
      finally block. */
  datatype Pc = Looking | Dropping | Claimed | Resolving | Working | Swapping | Caught(cancelled: bool) | Sweeping
              | Clearing(normally: bool) | Returned | Rejected | Escaped | Crashed

  /** A run's place, the steps it has started and not finished, and how many it has started. */
  datatype Local = Local(pc: Pc, open: set<nat>, next: nat)

  /** What a run does next. Every other database call that rejects while it works is a Throw. */
  datatype Op =
    | NotFound                    // 208
    | MissingApp                  // 210, 174-177
    | DropSteps                   // 178-183
    | Claim(won: bool)            // 215-220
    | Register                    // 226
    | TargetThrows                // 241-247
    | Enter                       // 273
    | Start                       // startStep
    | Finish(k: nat, ok: bool)    // finishStep
    | Succeed                     // 613-621, 862-870
    | Return
    | Throw(cancelled: bool)      // 691-694
    | Record                      // 695-698, 174-177
    | SweepSteps                  // 699-707, 178-183
    | WriteRejects                // a write of failDeployment or of the handler throws
    | Clear                       // 721

  function LocalNext(l: Local, op: Op): Option<Local> {
    match op
    case NotFound => if l.pc.Looking? then Some(l.(pc := Returned)) else None
    case MissingApp => if l.pc.Looking? then Some(l.(pc := Dropping)) else None
    case DropSteps => if l.pc.Dropping? then Some(l.(pc := Returned)) else None
    case Claim(won) => if l.pc.Looking? then Some(l.(pc := if won then Claimed else Returned)) else None
    case Register => if l.pc.Claimed? then Some(l.(pc := Resolving)) else None
    case TargetThrows => if l.pc.Resolving? then Some(l.(pc := Escaped)) else None
    case Enter => if l.pc.Resolving? then Some(l.(pc := Working)) else None
    case Start => if l.pc.Working? then Some(l.(open := l.open + {l.next}, next := l.next + 1)) else None
    case Finish(k, _) => if l.pc.Working? && k in l.open then Some(l.(open := l.open - {k})) else None
    case Succeed => if l.pc.Working? && l.open == {} then Some(l.(pc := Swapping)) else None
    case Return => if l.pc.Swapping? then Some(l.(pc := Clearing(true))) else None
    case Throw(cancelled) => if l.pc.Working? || l.pc.Swapping? then Some(l.(pc := Caught(cancelled))) else None
    case Record => if l.pc.Caught? then Some(l.(pc := Sweeping)) else None
    case SweepSteps => if l.pc.Sweeping? then Some(l.(pc := Clearing(true), open := {})) else None
    case WriteRejects =>
      if l.pc.Caught? || l.pc.Sweeping? then Some(l.(pc := Clearing(false)))
      else if l.pc.Looking? || l.pc.Dropping? then Some(l.(pc := Rejected))
      else None
    case Clear => if l.pc.Clearing? then Some(l.(pc := if l.pc.normally then Returned else Rejected)) else None
  }

  function FailRunning(steps: seq<StepStatus>): seq<StepStatus> {
    seq(|steps|, i requires 0 <= i < |steps| => if steps[i].StepRunning? then StepFailed else steps[i])
  }

  /** What the operation writes; no write but the claim looks at the status. */
  function RowNext(row: Row, l: Local, op: Op): Row {
    match op
    case MissingApp => row.(status := Failed)
    case DropSteps => row.(steps := FailRunning(row.steps))
    case Claim(won) => if won then row.(status := Running) else row
    case Start => row.(steps := row.steps + [StepRunning])
    case Finish(k, ok) =>
      if k < |row.steps| then row.(steps := row.steps[k := if ok then StepSucceeded else StepFailed]) else row
    case Succeed => row.(status := Succeeded)
    case Record => row.(status := if l.pc == Caught(true) then Cancelled else Failed)
    case SweepSteps => row.(steps := FailRunning(row.steps))
    case _ => row
  }

  // ---- all runs ----

  datatype Run = Run(id: nat, proc: nat, claimed: bool, local: Local)

  /** Rows by deployment, runs in delivery order, and each process's controllers: aborted or not. */
  datatype World = World(rows: map<nat, Row>, runs: seq<Run>, tracked: map<(nat, nat), bool>)

  datatype Action =
    | Enqueue(id: nat)
    | Deliver(id: nat, proc: nat)
    | Do(i: nat, op: Op)
    | Crash(proc: nat)
    | BootSweep
    | CancelQueued(id: nat)
    | Abort(proc: nat, id: nat)

  predicate AbortedAt(w: World, proc: nat, id: nat) {
    (proc, id) in w.tracked && w.tracked[(proc, id)]
  }

  /** A claim is won exactly while the row is queued; the handler sees a cancel exactly when the controller
      of this process is aborted (a CancelledError comes only from a child killed by its signal). */
  predicate MayDo(w: World, run: Run, op: Op) {
    && run.id in w.rows && LocalNext(run.local, op).Some?
    && (op.Claim? ==> op.won == w.rows[run.id].status.Queued?)
    && (op.Throw? ==> op.cancelled == AbortedAt(w, run.proc, run.id))
  }

  predicate Enabled(w: World, a: Action) {
    match a
    case Enqueue(id) => id !in w.rows
    case Deliver(id, _) => id in w.rows
    case Do(i, op) => i < |w.runs| && MayDo(w, w.runs[i], op)
    case CancelQueued(id) => id in w.rows && w.rows[id].status.Queued?
    case Abort(proc, id) => (proc, id) in w.tracked && id in w.rows
    case _ => true
  }

  function RunNext(run: Run, op: Op): Run
    requires LocalNext(run.local, op).Some?
  {
    run.(local := LocalNext(run.local, op).value, claimed := run.claimed || op == Claim(true))
  }

  function TrackedNext(tracked: map<(nat, nat), bool>, run: Run, op: Op): map<(nat, nat), bool> {
    if op.Register? then tracked[(run.proc, run.id) := false]
    else if op.Clear? then tracked - {(run.proc, run.id)}
    else tracked
  }

  function Killed(run: Run): Run {
    run.(local := run.local.(pc := Crashed))
  }

  function Swept(row: Row): Row {
    if row.status.Running? then row.(status := Failed) else row
  }

  function After(w: World, a: Action): World
    requires Enabled(w, a)
  {
    match a
    case Enqueue(id) => w.(rows := w.rows[id := Row(Queued, [], false)])
    case Deliver(id, proc) => w.(runs := w.runs + [Run(id, proc, false, Local(Looking, {}, 0))])
    case Do(i, op) =>
      var run := w.runs[i];
      World(w.rows[run.id := RowNext(w.rows[run.id], run.local, op)], w.runs[i := RunNext(run, op)],
            TrackedNext(w.tracked, run, op))
    case Crash(proc) =>
      w.(runs := seq(|w.runs|, i requires 0 <= i < |w.runs| =>
           if w.runs[i].proc == proc then Killed(w.runs[i]) else w.runs[i]),
         tracked := map key | key in w.tracked && key.0 != proc :: w.tracked[key])
    case BootSweep => w.(rows := map id | id in w.rows :: Swept(w.rows[id]))
    case CancelQueued(id) => w.(rows := w.rows[id := w.rows[id].(status := Cancelled, cancelAccepted := true)])
    case Abort(proc, id) =>
      w.(tracked := w.tracked[(proc, id) := true],
         rows := w.rows[id := w.rows[id].(cancelAccepted := true)])
  }

  /** The controllers of one process, as its registry holds them. */
  function ControllersOf(tracked: map<(nat, nat), bool>, proc: nat): map<nat, bool> {
    map key | key in tracked && key.0 == proc :: key.1 := tracked[key]
  }

  /** The module-level map of deploy/cancel-registry.ts, for the process `proc` of a world. */
  class CancelRegistry {
    const proc: nat
    var controllers: map<nat, bool>

    constructor (proc: nat)
      ensures this.proc == proc && controllers == map[]
    {
      this.proc := proc;
      controllers := map[];
    }

    method RegisterDeploy(id: nat, ghost w: World, ghost run: Run)
      requires controllers == ControllersOf(w.tracked, proc) && run.proc == proc && run.id == id
      modifies this
      ensures controllers == ControllersOf(TrackedNext(w.tracked, run, Register), proc)
    {
      controllers := controllers[id := false];
    }

    /** Whether a deploy is tracked here; if so it is now aborting. */
    method AbortDeploy(id: nat, ghost w: World) returns (accepted: bool)
      requires controllers == ControllersOf(w.tracked, proc) && id in w.rows
      modifies this
      ensures accepted == Enabled(w, Abort(proc, id))
      ensures controllers == ControllersOf(if accepted then After(w, Abort(proc, id)).tracked else w.tracked, proc)
    {
      assert id in controllers <==> (proc, id) in w.tracked by {
        assert (proc, id).0 == proc && (proc, id).1 == id;
      }
      if id !in controllers {
        return false;
      }
      controllers := controllers[id := true];
      return true;
    }

    method IsCancelRequested(id: nat, ghost w: World) returns (requested: bool)
      requires controllers == ControllersOf(w.tracked, proc)
      ensures requested == AbortedAt(w, proc, id)
    {
      assert (proc, id) in w.tracked ==> (proc, id).0 == proc && id in controllers;
      return id in controllers && controllers[id];
    }

    method ClearDeploy(id: nat, ghost w: World, ghost run: Run)
      requires controllers == ControllersOf(w.tracked, proc) && run.proc == proc && run.id == id
      modifies this
      ensures controllers == ControllersOf(TrackedNext(w.tracked, run, Clear), proc)
    {
      controllers := controllers - {id};
    }
  }

  const START := World(map[], [], map[])

  // ---- the invariant ----

  ghost predicate RowOk(row: Row) {
    (row.status.Queued? ==> row.steps == []) && (row.status.Cancelled? ==> row.cancelAccepted)
  }

  predicate NoneRunning(steps: seq<StepStatus>) {
    StepRunning !in steps
  }

  /** The row's running steps are ones the run has still open. */
  ghost predicate OpenSteps(row: Row, l: Local) {
    |row.steps| == l.next && forall k :: 0 <= k < |row.steps| && row.steps[k].StepRunning? ==> k in l.open
  }

  /** Claimed, and no step started: running, unless a boot sweep or a delivery without its app failed it. */
  ghost predicate Untouched(row: Row) {
    row.steps == [] && (row.status.Running? || row.status.Failed?)
  }

  /** What a run knows of its row at each place, whatever everyone else does. */
  ghost predicate RunOk(row: Row, run: Run) {
    var l := run.local;
    if !run.claimed then
      && l.open == {} && l.next == 0
      && (l.pc.Looking? || l.pc.Dropping? || l.pc.Returned? || l.pc.Rejected? || l.pc.Crashed?)
    else
      && !row.status.Queued? && OpenSteps(row, l)
      && match l.pc
         case Looking => false
         case Dropping => false
         case Claimed => Untouched(row)
         case Resolving => Untouched(row)
         case Escaped => Untouched(row)
         case Swapping => Terminal(row.status) && NoneRunning(row.steps)
         case Caught(cancelled) => cancelled ==> row.cancelAccepted
         case Sweeping => Terminal(row.status)
         case Clearing(normally) => normally ==> Terminal(row.status) && NoneRunning(row.steps)
         case Returned => Terminal(row.status) && NoneRunning(row.steps)
         case _ => true
  }

  ghost predicate RunAt(w: World, i: nat)
    requires i < |w.runs|
  {
    w.runs[i].id in w.rows && RunOk(w.rows[w.runs[i].id], w.runs[i])
  }

  ghost predicate BothClaimed(w: World, i: nat, j: nat)
    requires i < |w.runs| && j < |w.runs|
  {
    w.runs[i].claimed && w.runs[j].claimed && w.runs[i].id == w.runs[j].id
  }

  ghost predicate Valid(w: World) {
    && (forall i :: 0 <= i < |w.runs| ==> RunAt(w, i))
    && (forall i, j :: 0 <= i < j < |w.runs| ==> !BothClaimed(w, i, j))
    && (forall id :: id in w.rows ==> RowOk(w.rows[id]))
    && (forall key :: key in w.tracked && w.tracked[key] ==> key.1 in w.rows && w.rows[key.1].cancelAccepted)
  }

  // ---- one operation, on the row and the runs it can concern ----

  lemma {:induction false} ActorOk(row: Row, run: Run, op: Op)
    requires RowOk(row) && RunOk(row, run) && LocalNext(run.local, op).Some?
    requires op.Claim? ==> op.won == row.status.Queued?
    requires op.Throw? && op.cancelled ==> row.cancelAccepted
    ensures RowOk(RowNext(row, run.local, op)) && RunOk(RowNext(row, run.local, op), RunNext(run, op))
  {
  }

  /** A run is not disturbed by what another run of its deployment does. */
  lemma {:induction false} OtherOk(row: Row, actor: Run, op: Op, other: Run)
    requires RowOk(row) && RunOk(row, actor) && RunOk(row, other) && !(actor.claimed && other.claimed)
    requires LocalNext(actor.local, op).Some? && (op.Claim? ==> op.won == row.status.Queued?)
    ensures RunOk(RowNext(row, actor.local, op), other)
  {
  }

  /** Nor by a sweep at boot or an accepted cancel. */
  lemma {:induction false} OutsiderOk(row: Row, run: Run)
    requires RunOk(row, run)
    ensures RunOk(Swept(row), run) && RunOk(row.(cancelAccepted := true), run) && RunOk(row, Killed(run))
    ensures row.status.Queued? ==> RunOk(row.(status := Cancelled, cancelAccepted := true), run)
  {
  }

  lemma {:induction false} DoStays(w: World, i: nat, op: Op)
    requires Valid(w) && Enabled(w, Do(i, op))
    ensures Valid(After(w, Do(i, op)))
  {
    var run, next := w.runs[i], After(w, Do(i, op));
    var row := w.rows[run.id];
    assert RunAt(w, i);
    ActorOk(row, run, op);
    forall j | 0 <= j < |w.runs| ensures RunAt(next, j) {
      assert RunAt(w, j);
      if j != i && w.runs[j].id == run.id {
        assert !BothClaimed(w, if i < j then i else j, if i < j then j else i);
        OtherOk(row, run, op, w.runs[j]);
      }
    }
    forall j, k | 0 <= j < k < |next.runs| ensures !BothClaimed(next, j, k) {
      assert !BothClaimed(w, j, k);
      assert RunAt(w, j) && RunAt(w, k);
    }
  }

  lemma {:induction false} RowsStay(w: World, rows: map<nat, Row>)
    requires forall i :: 0 <= i < |w.runs| ==> w.runs[i].id in rows && RunOk(rows[w.runs[i].id], w.runs[i])
    requires Valid(w)
    ensures forall i :: 0 <= i < |w.runs| ==> RunAt(w.(rows := rows), i)
    ensures forall i, j :: 0 <= i < j < |w.runs| ==> !BothClaimed(w.(rows := rows), i, j)
  {
    forall i, j | 0 <= i < j < |w.runs| ensures !BothClaimed(w.(rows := rows), i, j) {
      assert !BothClaimed(w, i, j);
    }
  }

  lemma {:induction false} CrashStays(w: World, proc: nat)
    requires Valid(w)
    ensures Valid(After(w, Crash(proc)))
  {
    var next := After(w, Crash(proc));
    forall i | 0 <= i < |next.runs| ensures RunAt(next, i) {
      assert RunAt(w, i);
      OutsiderOk(w.rows[w.runs[i].id], w.runs[i]);
    }
    forall i, j | 0 <= i < j < |next.runs| ensures !BothClaimed(next, i, j) {
      assert !BothClaimed(w, i, j);
    }
  }

  lemma {:induction false} OutsiderStays(w: World, a: Action)
    requires Valid(w) && Enabled(w, a) && (a.Enqueue? || a.BootSweep? || a.CancelQueued? || a.Abort?)
    ensures Valid(After(w, a))
  {
    var next := After(w, a);
    forall i | 0 <= i < |w.runs|
      ensures w.runs[i].id in next.rows && RunOk(next.rows[w.runs[i].id], w.runs[i])
    {
      assert RunAt(w, i);
      OutsiderOk(w.rows[w.runs[i].id], w.runs[i]);
    }
    RowsStay(w, next.rows);
    forall i | 0 <= i < |next.runs| ensures RunAt(next, i) {
      assert RunAt(w.(rows := next.rows), i);
    }
    forall i, j | 0 <= i < j < |next.runs| ensures !BothClaimed(next, i, j) {
      assert !BothClaimed(w.(rows := next.rows), i, j);
    }
  }

  lemma {:induction false} DeliverStays(w: World, id: nat, proc: nat)
    requires Valid(w) && id in w.rows
    ensures Valid(After(w, Deliver(id, proc)))
  {
    var next := After(w, Deliver(id, proc));
    forall i | 0 <= i < |next.runs| ensures RunAt(next, i) {
      assert i < |w.runs| ==> RunAt(w, i);
    }
    forall i, j | 0 <= i < j < |next.runs| ensures !BothClaimed(next, i, j) {
      assert j < |w.runs| ==> !BothClaimed(w, i, j);
    }
  }

  lemma {:induction false} ValidStays(w: World, a: Action)
    requires Valid(w) && Enabled(w, a)
    ensures Valid(After(w, a))
  {
    match a
    case Do(i, op) => DoStays(w, i, op);
    case Crash(proc) => CrashStays(w, proc);
    case Deliver(id, proc) => DeliverStays(w, id, proc);
    case _ => OutsiderStays(w, a);
  }

  // ---- every interleaving ----

  ghost predicate IsRun(w: World, actions: seq<Action>)
    decreases |actions|
  {
    actions == [] || (Enabled(w, actions[0]) && IsRun(After(w, actions[0]), actions[1..]))
  }

  function AfterAll(w: World, actions: seq<Action>): World
    requires IsRun(w, actions)
    decreases |actions|
  {
    if actions == [] then w else AfterAll(After(w, actions[0]), actions[1..])
  }

  lemma {:induction false} AlwaysValid(w: World, actions: seq<Action>)
    requires Valid(w) && IsRun(w, actions)
    ensures Valid(AfterAll(w, actions))
    decreases |actions|
  {
    if actions != [] {
      ValidStays(w, actions[0]);
      AlwaysValid(After(w, actions[0]), actions[1..]);
    }
  }

  /** Main result: whatever is redelivered, cancelled, killed or swept around it, a run that won the claim and
      returned left a terminal row with no step running; and of all runs of a deployment at most one won. */
  lemma {:induction false} ReturnedRunsAreFinal(actions: seq<Action>, i: nat)
    requires IsRun(START, actions) && i < |AfterAll(START, actions).runs|
    ensures var w := AfterAll(START, actions); var run := w.runs[i];
      && run.id in w.rows
      && (run.claimed && run.local.pc.Returned? ==>
            Terminal(w.rows[run.id].status) && NoneRunning(w.rows[run.id].steps))
      && (forall j :: 0 <= j < |w.runs| && j != i && w.runs[j].id == run.id ==> !(run.claimed && w.runs[j].claimed))
  {
    AlwaysValid(START, actions);
    var w := AfterAll(START, actions);
    assert RunAt(w, i);
    forall j | 0 <= j < |w.runs| && j != i && w.runs[j].id == w.runs[i].id
      ensures !(w.runs[i].claimed && w.runs[j].claimed)
    {
      assert !BothClaimed(w, if i < j then i else j, if i < j then j else i);
    }
  }

  /** A run that escapes, because resolving its server failed after the claim, has no handler: its row is
      still running unless a sweep or a delivery without its app failed it, and it has no steps. */
  lemma {:induction false} EscapedRunsAreUntouched(actions: seq<Action>, i: nat)
    requires IsRun(START, actions) && i < |AfterAll(START, actions).runs|
    requires AfterAll(START, actions).runs[i].local.pc.Escaped?
    ensures var w := AfterAll(START, actions);
      w.runs[i].id in w.rows && Untouched(w.rows[w.runs[i].id])
  {
    AlwaysValid(START, actions);
    assert RunAt(AfterAll(START, actions), i);
  }

  // ---- the status never goes back ----

  lemma {:induction false} NeverQueuedAgain(w: World, a: Action, id: nat)
    requires Enabled(w, a) && id in w.rows && !w.rows[id].status.Queued?
    ensures id in After(w, a).rows && !After(w, a).rows[id].status.Queued?
  {
  }

  /** Terminal is not final: only that nothing leads from terminal back to running or queued. */
  lemma {:induction false} TerminalStaysTerminal(w: World, a: Action, id: nat)
    requires Enabled(w, a) && id in w.rows && Terminal(w.rows[id].status)
    ensures id in After(w, a).rows && Terminal(After(w, a).rows[id].status)
  {
  }

  /** Once terminal, a row is terminal for the rest of the run. */
  lemma {:induction false} TerminalForever(w: World, actions: seq<Action>, id: nat)
    requires IsRun(w, actions) && id in w.rows && Terminal(w.rows[id].status)
    ensures id in AfterAll(w, actions).rows && Terminal(AfterAll(w, actions).rows[id].status)
    decreases |actions|
  {
    if actions != [] {
      TerminalStaysTerminal(w, actions[0], id);
      TerminalForever(After(w, actions[0]), actions[1..], id);
    }
  }

  predicate WinsClaim(w: World, a: Action, id: nat) {
    a.Do? && a.op == Claim(true) && a.i < |w.runs| && w.runs[a.i].id == id
  }

  function Wins(w: World, actions: seq<Action>, id: nat): nat
    requires IsRun(w, actions)
    decreases |actions|
  {
    if actions == [] then 0
    else (if WinsClaim(w, actions[0], id) then 1 else 0) + Wins(After(w, actions[0]), actions[1..], id)
  }

  lemma {:induction false} NoWinAfterQueued(w: World, actions: seq<Action>, id: nat)
    requires IsRun(w, actions) && id in w.rows && !w.rows[id].status.Queued?
    ensures Wins(w, actions, id) == 0 && id in AfterAll(w, actions).rows
    ensures !AfterAll(w, actions).rows[id].status.Queued?
    decreases |actions|
  {
    if actions != [] {
      NeverQueuedAgain(w, actions[0], id);
      NoWinAfterQueued(After(w, actions[0]), actions[1..], id);
    }
  }

  /** The atomic claim: over any interleaving a deployment passes it at most once. */
  lemma {:induction false} ClaimedAtMostOnce(w: World, actions: seq<Action>, id: nat)
    requires IsRun(w, actions)
    ensures Wins(w, actions, id) <= 1
    decreases |actions|
  {
    if actions != [] {
      if WinsClaim(w, actions[0], id) {
        NoWinAfterQueued(After(w, actions[0]), actions[1..], id);
      } else {
        ClaimedAtMostOnce(After(w, actions[0]), actions[1..], id);
      }
    }
  }

  // ---- a cancelled row was cancelled by someone ----

  predicate IsCancel(a: Action, id: nat) {
    a == CancelQueued(id) || (a.Abort? && a.id == id)
  }

  lemma {:induction false} AcceptedByRequest(w: World, actions: seq<Action>, id: nat)
    requires IsRun(w, actions) && !(id in w.rows && w.rows[id].cancelAccepted)
    ensures id in AfterAll(w, actions).rows && AfterAll(w, actions).rows[id].cancelAccepted ==>
      exists k :: 0 <= k < |actions| && IsCancel(actions[k], id)
    decreases |actions|
  {
    if actions != [] {
      if IsCancel(actions[0], id) {
      } else {
        AcceptedByRequest(After(w, actions[0]), actions[1..], id);
        if id in AfterAll(w, actions).rows && AfterAll(w, actions).rows[id].cancelAccepted {
          var k :| 0 <= k < |actions[1..]| && IsCancel(actions[1..][k], id);
          assert IsCancel(actions[k + 1], id);
        }
      }
    }
  }

  /** A deployment ends cancelled only if a cancel request for it was accepted. */
  lemma {:induction false} CancelledOnRequest(actions: seq<Action>, id: nat)
    requires IsRun(START, actions)
    requires id in AfterAll(START, actions).rows && AfterAll(START, actions).rows[id].status.Cancelled?
    ensures exists k :: 0 <= k < |actions| && IsCancel(actions[k], id)
  {
    AlwaysValid(START, actions);
    assert RowOk(AfterAll(START, actions).rows[id]);
    AcceptedByRequest(START, actions, id);
  }

  lemma {:induction false} StaysNotRunning(w: World, a: Action, id: nat)
    requires Enabled(w, a) && !(id in w.rows && w.rows[id].status.Running?) && !WinsClaim(w, a, id)
    ensures !(id in After(w, a).rows && After(w, a).rows[id].status.Running?)
  {
  }

  /** A row that is running now, and was not, has been claimed in between. */
  lemma {:induction false} RunningWasClaimed(w: World, actions: seq<Action>, id: nat)
    requires IsRun(w, actions) && !(id in w.rows && w.rows[id].status.Running?)
    ensures id in AfterAll(w, actions).rows && AfterAll(w, actions).rows[id].status.Running? ==>
            Wins(w, actions, id) == 1
    decreases |actions|
  {
    if actions != [] {
      if WinsClaim(w, actions[0], id) {
        NoWinAfterQueued(After(w, actions[0]), actions[1..], id);
      } else {
        StaysNotRunning(w, actions[0], id);
        RunningWasClaimed(After(w, actions[0]), actions[1..], id);
      }
    }
  }

  /** What the sweep at boot is for: whatever happens after it, a running row is one that was claimed after it,
      so no row stays stranded by a process that died before. Queued rows are left to their redelivery. The
      steps are not its business: a row has a running step right after it exactly if it had one before. */
  lemma {:induction false} BootFinalizes(w: World, later: seq<Action>, id: nat)
    requires IsRun(After(w, BootSweep), later) && id in w.rows
    ensures id in AfterAll(After(w, BootSweep), later).rows
    ensures AfterAll(After(w, BootSweep), later).rows[id].status.Running? ==>
      w.rows[id].status.Queued? && Wins(After(w, BootSweep), later, id) == 1
    ensures NoneRunning(After(w, BootSweep).rows[id].steps) <==> NoneRunning(w.rows[id].steps)
  {
    var swept := After(w, BootSweep);
    RunningWasClaimed(swept, later, id);
    RowsRemain(swept, later, id);
    if !w.rows[id].status.Queued? {
      NoWinAfterQueued(swept, later, id);
    }
  }

  lemma {:induction false} RowsRemain(w: World, actions: seq<Action>, id: nat)
    requires IsRun(w, actions) && id in w.rows
    ensures id in AfterAll(w, actions).rows
    decreases |actions|
  {
    if actions != [] {
      RowsRemain(After(w, actions[0]), actions[1..], id);
    }
  }

  // ---- exactly how a claimed run leaves its row ----

  lemma {:induction false} RunAppend(w: World, a: seq<Action>, b: seq<Action>)
    ensures IsRun(w, a + b) <==> IsRun(w, a) && IsRun(AfterAll(w, a), b)
    ensures IsRun(w, a + b) ==> AfterAll(w, a + b) == AfterAll(AfterAll(w, a), b)
    decreases |a|
  {
    if a == [] {
      assert a + b == b;
    } else {
      assert (a + b)[1..] == a[1..] + b && (a + b)[0] == a[0];
      if Enabled(w, a[0]) {
        RunAppend(After(w, a[0]), a[1..], b);
      }
    }
  }

  /** Kinds of steps a run can have taken. */
  datatype Kind = Ended | TargetThrew | WriteRejected

  predicate IsKind(op: Op, kind: Kind) {
    match kind
    case Ended => op.Succeed? || op.Record?
    case TargetThrew => op.TargetThrows?
    case WriteRejected => op.WriteRejects?
  }

  /** Run i took a step of the kind. */
  ghost predicate Took(actions: seq<Action>, i: nat, kind: Kind) {
    exists k :: 0 <= k < |actions| && actions[k].Do? && actions[k].i == i && IsKind(actions[k].op, kind)
  }

  /** Someone else's write that fails the row of run i: a boot sweep, or a delivery that finds no app. */
  predicate FailsRow(w: World, a: Action, i: nat)
    requires i < |w.runs|
  {
    a.BootSweep? || (a.Do? && a.op.MissingApp? && a.i < |w.runs| && w.runs[a.i].id == w.runs[i].id)
  }

  ghost predicate FailedByOthers(w: World, actions: seq<Action>, i: nat)
    requires i < |w.runs|
  {
    exists k :: 0 <= k < |actions| && FailsRow(w, actions[k], i)
  }

  lemma {:induction false} TookMore(actions: seq<Action>, a: Action, i: nat, kind: Kind)
    ensures Took(actions + [a], i, kind)
       <==> Took(actions, i, kind) || (a.Do? && a.i == i && IsKind(a.op, kind))
  {
    var more := actions + [a];
    if Took(actions, i, kind) {
      var k :| 0 <= k < |actions| && actions[k].Do? && actions[k].i == i && IsKind(actions[k].op, kind);
      assert more[k] == actions[k];
    }
    if a.Do? && a.i == i && IsKind(a.op, kind) {
      assert more[|actions|] == a;
    }
    if Took(more, i, kind) {
      var k :| 0 <= k < |more| && more[k].Do? && more[k].i == i && IsKind(more[k].op, kind);
      assert k < |actions| ==> more[k] == actions[k];
    }
  }

  lemma {:induction false} FailedMore(w: World, actions: seq<Action>, a: Action, i: nat)
    requires i < |w.runs|
    ensures FailedByOthers(w, actions + [a], i) <==> FailedByOthers(w, actions, i) || FailsRow(w, a, i)
  {
    var more := actions + [a];
    if FailedByOthers(w, actions, i) {
      var k :| 0 <= k < |actions| && FailsRow(w, actions[k], i);
      assert FailsRow(w, more[k], i);
    }
    if FailsRow(w, a, i) {
      assert FailsRow(w, more[|actions|], i);
    }
  }

  /** What a claimed run's place says about the steps it has taken since the claim. */
  ghost predicate PastOf(pc: Pc, done: seq<Action>, i: nat) {
    match pc
    case Crashed => true
    case Escaped => Took(done, i, TargetThrew) && !Took(done, i, Ended) && !Took(done, i, WriteRejected)
    case Rejected => Took(done, i, WriteRejected) && !Took(done, i, TargetThrew)
    case Clearing(normally) =>
      && !Took(done, i, TargetThrew)
      && if normally then Took(done, i, Ended) && !Took(done, i, WriteRejected) else Took(done, i, WriteRejected)
    case Returned => Took(done, i, Ended) && !Took(done, i, TargetThrew) && !Took(done, i, WriteRejected)
    case Swapping => Took(done, i, Ended) && !Took(done, i, TargetThrew) && !Took(done, i, WriteRejected)
    case Sweeping => Took(done, i, Ended) && !Took(done, i, TargetThrew) && !Took(done, i, WriteRejected)
    case Caught(_) => !Took(done, i, TargetThrew) && !Took(done, i, WriteRejected)
    case Looking => false
    case Dropping => false
    case _ => !Took(done, i, Ended) && !Took(done, i, TargetThrew) && !Took(done, i, WriteRejected)
  }

  /** The row of a claimed run is terminal exactly if the run ended it or someone failed it since the claim. */
  ghost predicate StatusExact(w: World, done: seq<Action>, i: nat)
    requires i < |w.runs| && w.runs[i].id in w.rows
  {
    var status := w.rows[w.runs[i].id].status;
    (status.Running? || Terminal(status)) && (Terminal(status) <==> Took(done, i, Ended) || FailedByOthers(w, done, i))
  }

  /** A step of a claimed run is running exactly if the run has it open and it was started after the last time
      a delivery without its app failed the running steps. */
  ghost predicate StepsExact(row: Row, l: Local, floor: nat) {
    && |row.steps| == l.next && floor <= l.next && (forall k :: k in l.open ==> k < l.next)
    && forall k :: 0 <= k < |row.steps| ==> (row.steps[k].StepRunning? <==> k in l.open && k >= floor)
  }

  predicate DropsSteps(w: World, a: Action, id: nat) {
    a.Do? && a.op.DropSteps? && a.i < |w.runs| && w.runs[a.i].id == id
  }

  /** How many steps there were when a delivery without its app last failed the running ones. */
  function DropFloor(w: World, actions: seq<Action>, id: nat, floor: nat): nat
    requires IsRun(w, actions) && id in w.rows
    decreases |actions|
  {
    if actions == [] then floor
    else
      DropFloor(After(w, actions[0]), actions[1..], id,
                if DropsSteps(w, actions[0], id) then |w.rows[id].steps| else floor)
  }

  lemma {:induction false} RunsKeepIds(w: World, a: Action, i: nat)
    requires Enabled(w, a) && i < |w.runs|
    ensures i < |After(w, a).runs| && After(w, a).runs[i].id == w.runs[i].id
    ensures w.runs[i].claimed ==> After(w, a).runs[i].claimed
  {
  }

  lemma {:induction false} PastNext(w: World, a: Action, i: nat, done: seq<Action>)
    requires Enabled(w, a) && i < |w.runs| && w.runs[i].claimed && PastOf(w.runs[i].local.pc, done, i)
    ensures PastOf(After(w, a).runs[i].local.pc, done + [a], i)
  {
    TookMore(done, a, i, Ended);
    TookMore(done, a, i, TargetThrew);
    TookMore(done, a, i, WriteRejected);
  }

  /** Of all runs of a deployment only the claimed one writes its end. */
  lemma {:induction false} OnlyTheClaimedEnds(w: World, a: Action, i: nat)
    requires Valid(w) && Enabled(w, a) && i < |w.runs| && w.runs[i].claimed
    requires a.Do? && (IsKind(a.op, Ended) || a.op.Start? || a.op.Finish? || a.op.SweepSteps?)
    requires w.runs[a.i].id == w.runs[i].id
    ensures a.i == i
  {
    assert RunAt(w, a.i);
    assert i < a.i ==> !BothClaimed(w, i, a.i);
    assert a.i < i ==> !BothClaimed(w, a.i, i);
  }

  lemma {:induction false} FailsRowStays(w: World, a: Action, b: Action, i: nat)
    requires Enabled(w, a) && i < |w.runs| && (b.Do? ==> b.i < |w.runs|)
    ensures i < |After(w, a).runs| && (FailsRow(After(w, a), b, i) <==> FailsRow(w, b, i))
  {
    if b.Do? {
      RunsKeepIds(w, a, b.i);
    }
    RunsKeepIds(w, a, i);
  }

  /** Every run that acted is one of the runs. */
  ghost predicate Acted(w: World, done: seq<Action>) {
    forall k :: 0 <= k < |done| && done[k].Do? ==> done[k].i < |w.runs|
  }

  lemma {:induction false} StatusNext(w: World, a: Action, i: nat, done: seq<Action>)
    requires Valid(w) && Enabled(w, a) && i < |w.runs| && w.runs[i].claimed && w.runs[i].id in w.rows
    requires Acted(w, done) && StatusExact(w, done, i)
    ensures var next := After(w, a);
      i < |next.runs| && next.runs[i].id in next.rows && Acted(next, done + [a]) && StatusExact(next, done + [a], i)
  {
    var next, id := After(w, a), w.runs[i].id;
    RunsKeepIds(w, a, i);
    TookMore(done, a, i, Ended);
    FailedMore(next, done, a, i);
    assert FailedByOthers(next, done, i) <==> FailedByOthers(w, done, i) by {
      forall k | 0 <= k < |done| ensures FailsRow(next, done[k], i) <==> FailsRow(w, done[k], i) {
        FailsRowStays(w, a, done[k], i);
      }
      if FailedByOthers(w, done, i) {
        var k :| 0 <= k < |done| && FailsRow(w, done[k], i);
        assert FailsRow(next, done[k], i);
      }
    }
    FailsRowStays(w, a, a, i);
    StatusStep(w, a, i);
  }

  lemma {:induction false} StatusStep(w: World, a: Action, i: nat)
    requires Valid(w) && Enabled(w, a) && i < |w.runs| && w.runs[i].claimed && w.runs[i].id in w.rows
    requires var status := w.rows[w.runs[i].id].status; status.Running? || Terminal(status)
    ensures var id := w.runs[i].id; var before := w.rows[id].status;
      && id in After(w, a).rows
      && var status := After(w, a).rows[id].status;
      && (status.Running? || Terminal(status))
      && (Terminal(status) <==>
            Terminal(before) || FailsRow(w, a, i) || (a.Do? && a.i == i && IsKind(a.op, Ended)))
  {
    if a.Do? && IsKind(a.op, Ended) && w.runs[a.i].id == w.runs[i].id {
      OnlyTheClaimedEnds(w, a, i);
    }
  }

  lemma {:induction false} StepsNext(w: World, a: Action, i: nat, floor: nat)
    requires Valid(w) && Enabled(w, a) && i < |w.runs| && w.runs[i].claimed && w.runs[i].id in w.rows
    requires StepsExact(w.rows[w.runs[i].id], w.runs[i].local, floor)
    ensures var next, id := After(w, a), w.runs[i].id;
      && i < |next.runs| && next.runs[i].id == id && id in next.rows
      && StepsExact(next.rows[id], next.runs[i].local, if DropsSteps(w, a, id) then |w.rows[id].steps| else floor)
  {
    RunsKeepIds(w, a, i);
    assert RunAt(w, i);
    if a.Do? && w.runs[a.i].id == w.runs[i].id {
      assert RunAt(w, a.i);
      if a.op.Start? || a.op.Finish? || a.op.SweepSteps? {
        OnlyTheClaimedEnds(w, a, i);
      }
    }
  }

  /** Run i has just won the claim. */
  ghost predicate JustClaimed(w: World, i: nat) {
    && Valid(w) && i < |w.runs| && w.runs[i].claimed && w.runs[i].local == Local(Claimed, {}, 0)
    && w.runs[i].id in w.rows && w.rows[w.runs[i].id].status.Running? && w.rows[w.runs[i].id].steps == []
  }

  /** All that is known of claimed run i after `done` since its claim. */
  ghost predicate Known(w: World, done: seq<Action>, i: nat, floor: nat) {
    && Valid(w) && i < |w.runs| && w.runs[i].claimed && w.runs[i].id in w.rows && Acted(w, done)
    && PastOf(w.runs[i].local.pc, done, i) && StatusExact(w, done, i)
    && StepsExact(w.rows[w.runs[i].id], w.runs[i].local, floor)
  }

  lemma {:induction false} KnownLater(w: World, done: seq<Action>, i: nat, floor: nat, later: seq<Action>)
    requires Known(w, done, i, floor) && IsRun(w, later)
    ensures var end := AfterAll(w, later);
      && i < |end.runs| && end.runs[i].id == w.runs[i].id
      && Known(end, done + later, i, DropFloor(w, later, w.runs[i].id, floor))
    decreases |later|
  {
    if later == [] {
      assert done + later == done;
    } else {
      var a, id := later[0], w.runs[i].id;
      ValidStays(w, a);
      RunsKeepIds(w, a, i);
      PastNext(w, a, i, done);
      StatusNext(w, a, i, done);
      StepsNext(w, a, i, floor);
      KnownLater(After(w, a), done + [a], i, if DropsSteps(w, a, id) then |w.rows[id].steps| else floor, later[1..]);
      assert done + [a] + later[1..] == done + later;
    }
  }

  /** A run that is over, however it got there, in a process that still lives. */
  predicate Exited(pc: Pc) {
    pc.Returned? || pc.Rejected? || pc.Escaped?
  }

  lemma {:induction false} ExitsFrom(w: World, i: nat, later: seq<Action>)
    requires JustClaimed(w, i) && IsRun(w, later)
    ensures var end := AfterAll(w, later);
      i < |end.runs| && end.runs[i].id == w.runs[i].id && Known(end, later, i, DropFloor(w, later, w.runs[i].id, 0))
  {
    assert Known(w, [], i, 0) by {
      assert !Took([], i, Ended) && !Took([], i, TargetThrew) && !Took([], i, WriteRejected);
    }
    KnownLater(w, [], i, 0, later);
    assert [] + later == later;
  }

  /** Main result, exactly: how a run that won the claim and is over has left its row, whatever else happened
      since. The row is terminal if and only if the run wrote its end or someone else failed the row; a step is
      running if and only if the run still has it open, unswept. So a run none of whose outcome writes were
      rejected leaves a terminal row with no running step if and only if its server was resolved, or a boot
      sweep or a delivery without its app failed the row. */
  lemma {:induction false} ExitsExactly(before: seq<Action>, i: nat, later: seq<Action>)
    requires IsRun(START, before + [Do(i, Claim(true))] + later)
    requires i < |AfterAll(START, before + [Do(i, Claim(true))] + later).runs|
    requires Exited(AfterAll(START, before + [Do(i, Claim(true))] + later).runs[i].local.pc)
    ensures IsRun(START, before + [Do(i, Claim(true))])
    ensures var claimed := AfterAll(START, before + [Do(i, Claim(true))]);
      var w := AfterAll(START, before + [Do(i, Claim(true))] + later);
      var id, l := w.runs[i].id, w.runs[i].local;
      && id in claimed.rows && id in w.rows && IsRun(claimed, later)
      && (Terminal(w.rows[id].status) <==> Took(later, i, Ended) || FailedByOthers(w, later, i))
      && (NoneRunning(w.rows[id].steps) <==> forall k :: k in l.open ==> k < DropFloor(claimed, later, id, 0))
      && (!Took(later, i, WriteRejected) ==>
            (Terminal(w.rows[id].status) && NoneRunning(w.rows[id].steps)
             <==> !Took(later, i, TargetThrew) || FailedByOthers(w, later, i)))
  {
    var claim := [Do(i, Claim(true))];
    RunAppend(START, before + claim, later);
    RunAppend(START, before, claim);
    var w0 := AfterAll(START, before);
    AlwaysValid(START, before);
    assert IsRun(w0, claim) && Enabled(w0, claim[0]) && AfterAll(w0, claim) == After(w0, claim[0]) by {
      assert claim[1..] == [];
    }
    assert RunAt(w0, i);
    ValidStays(w0, claim[0]);
    assert JustClaimed(After(w0, claim[0]), i);
    ExitsFrom(After(w0, claim[0]), i, later);
    RunningSteps(AfterAll(START, before + claim + later), i, DropFloor(After(w0, claim[0]), later, w0.runs[i].id, 0));
  }

  lemma {:induction false} RunningSteps(w: World, i: nat, floor: nat)
    requires i < |w.runs| && w.runs[i].id in w.rows && RunAt(w, i) && w.runs[i].claimed
    requires StepsExact(w.rows[w.runs[i].id], w.runs[i].local, floor)
    ensures NoneRunning(w.rows[w.runs[i].id].steps) <==> forall k :: k in w.runs[i].local.open ==> k < floor
  {
    var steps, l := w.rows[w.runs[i].id].steps, w.runs[i].local;
    if k :| k in l.open && k >= floor {
      assert steps[k] == StepRunning;
    }
  }

  // ---- which terminal status, and which step status ----

  /** The database operations that write an outcome. */
  predicate WritesOutcome(op: Op) {
    op.Succeed? || op.Record? || op.MissingApp?
  }

  /** None of these actions writes the outcome of deployment id; `end` knows whose runs they are. */
  ghost predicate NoOutcome(end: World, actions: seq<Action>, id: nat) {
    forall k :: 0 <= k < |actions| && actions[k].Do? && WritesOutcome(actions[k].op) ==>
      actions[k].i < |end.runs| && end.runs[actions[k].i].id != id
  }

  lemma {:induction false} RunsRemain(w: World, actions: seq<Action>, i: nat)
    requires IsRun(w, actions) && i < |w.runs|
    ensures var end := AfterAll(w, actions);
      i < |end.runs| && end.runs[i].id == w.runs[i].id && (w.runs[i].claimed ==> end.runs[i].claimed)
    decreases |actions|
  {
    if actions != [] {
      RunsKeepIds(w, actions[0], i);
      RunsRemain(After(w, actions[0]), actions[1..], i);
    }
  }

  lemma {:induction false} OutcomeStays(w: World, actions: seq<Action>, id: nat)
    requires IsRun(w, actions) && id in w.rows && Terminal(w.rows[id].status)
    requires NoOutcome(AfterAll(w, actions), actions, id)
    ensures id in AfterAll(w, actions).rows && AfterAll(w, actions).rows[id].status == w.rows[id].status
    decreases |actions|
  {
    if actions != [] {
      var a, rest, end := actions[0], actions[1..], AfterAll(w, actions);
      var next := After(w, a);
      if a.Do? {
        RunsRemain(w, actions, a.i);
      }
      TerminalStaysTerminal(w, a, id);
      assert next.rows[id].status == w.rows[id].status;
      forall k | 0 <= k < |rest| && rest[k].Do? && WritesOutcome(rest[k].op)
        ensures rest[k].i < |end.runs| && end.runs[rest[k].i].id != id
      {
        assert rest[k] == actions[k + 1];
      }
      OutcomeStays(next, rest, id);
    }
  }

  /** The throw of run i, by its place: none yet, or the one it is handling. */
  ghost predicate ThrownOf(w: World, done: seq<Action>, i: nat) {
    if i >= |w.runs| then forall op :: Do(i, op) !in done
    else
      match w.runs[i].local.pc
      case Caught(cancelled) => Do(i, Throw(cancelled)) in done && Do(i, Throw(!cancelled)) !in done
      case Sweeping => true
      case Clearing(_) => true
      case Returned => true
      case Rejected => true
      case Escaped => true
      case Crashed => true
      case _ => Do(i, Throw(true)) !in done && Do(i, Throw(false)) !in done
  }

  lemma {:induction false} ThrownNext(w: World, done: seq<Action>, i: nat, a: Action)
    requires Enabled(w, a) && ThrownOf(w, done, i)
    ensures ThrownOf(After(w, a), done + [a], i)
  {
    var next := After(w, a);
    if i < |w.runs| {
      RunsKeepIds(w, a, i);
    }
    assert forall b :: b in done + [a] <==> b in done || b == a;
  }

  lemma {:induction false} ThrownKnown(actions: seq<Action>, i: nat)
    requires IsRun(START, actions)
    ensures ThrownOf(AfterAll(START, actions), actions, i)
    decreases |actions|
  {
    if actions != [] {
      var n := |actions| - 1;
      assert actions == actions[..n] + [actions[n]];
      RunAppend(START, actions[..n], [actions[n]]);
      ThrownKnown(actions[..n], i);
      OneMore(AfterAll(START, actions[..n]), actions[n]);
      ThrownNext(AfterAll(START, actions[..n]), actions[..n], i, actions[n]);
    }
  }

  lemma {:induction false} OneMore(w: World, a: Action)
    ensures IsRun(w, [a]) <==> Enabled(w, a)
    ensures Enabled(w, a) ==> AfterAll(w, [a]) == After(w, a)
  {
    assert [a][1..] == [];
    if Enabled(w, a) {
      assert IsRun(After(w, a), []);
    }
  }

  /** A run split at one of its actions. */
  lemma {:induction false} SplitRun(before: seq<Action>, a: Action, later: seq<Action>)
    requires IsRun(START, before + [a] + later)
    ensures IsRun(START, before) && Enabled(AfterAll(START, before), a)
    ensures var w := After(AfterAll(START, before), a);
      IsRun(w, later) && AfterAll(START, before + [a] + later) == AfterAll(w, later)
    ensures Valid(AfterAll(START, before)) && Valid(After(AfterAll(START, before), a))
  {
    RunAppend(START, before + [a], later);
    RunAppend(START, before, [a]);
    OneMore(AfterAll(START, before), a);
    AlwaysValid(START, before);
    ValidStays(AfterAll(START, before), a);
  }

  /** Main result: over all interleavings the last outcome written for a deployment stands, and it is the right one:
      a success succeeded, a recorded throw cancelled if the throw was a cancel and failed otherwise, a delivery that
      finds no app failed. */
  lemma {:induction false} LastOutcomeStands(before: seq<Action>, i: nat, op: Op, later: seq<Action>)
    requires WritesOutcome(op) && IsRun(START, before + [Do(i, op)] + later)
    requires var end := AfterAll(START, before + [Do(i, op)] + later);
      i < |end.runs| && NoOutcome(end, later, end.runs[i].id)
    ensures var end := AfterAll(START, before + [Do(i, op)] + later); var id := end.runs[i].id;
      && id in end.rows
      && (op.Succeed? ==> end.rows[id].status == Succeeded)
      && (op.Record? && Do(i, Throw(true)) in before ==> end.rows[id].status == Cancelled)
      && (op.Record? && Do(i, Throw(true)) !in before ==> end.rows[id].status == Failed)
      && (op.MissingApp? ==> end.rows[id].status == Failed)
  {
    SplitRun(before, Do(i, op), later);
    var w := AfterAll(START, before);
    ThrownKnown(before, i);
    var next := After(w, Do(i, op));
    RunsKeepIds(w, Do(i, op), i);
    RunsRemain(next, later, i);
    OutcomeStays(next, later, w.runs[i].id);
  }

  /** A deployment cancelled in the queue stays cancelled, and a running one that a boot sweep meets is failed, for as
      long as nobody writes its outcome. */
  lemma {:induction false} OutsideOutcomesStand(before: seq<Action>, a: Action, later: seq<Action>, id: nat)
    requires IsRun(START, before + [a] + later) && NoOutcome(AfterAll(START, before + [a] + later), later, id)
    requires a == CancelQueued(id) || a == BootSweep
    ensures IsRun(START, before)
    ensures var w, end := AfterAll(START, before), AfterAll(START, before + [a] + later);
      && (a == CancelQueued(id) ==> id in end.rows && end.rows[id].status == Cancelled)
      && (a == BootSweep && id in w.rows && w.rows[id].status.Running? ==>
            id in end.rows && end.rows[id].status == Failed)
      && (a == BootSweep && id in w.rows && Terminal(w.rows[id].status) ==>
            id in end.rows && end.rows[id].status == w.rows[id].status)
  {
    SplitRun(before, a, later);
    var next := After(AfterAll(START, before), a);
    if id in next.rows && Terminal(next.rows[id].status) {
      OutcomeStays(next, later, id);
    }
  }

  /** Action k is the success write of a claimed run of the deployment. */
  ghost predicate SucceededAt(end: World, actions: seq<Action>, id: nat, k: int) {
    && 0 <= k < |actions| && actions[k].Do? && actions[k].op.Succeed?
    && actions[k].i < |end.runs| && end.runs[actions[k].i].id == id && end.runs[actions[k].i].claimed
  }

  lemma {:induction false} SuccessIsOfTheClaimed(w: World, a: Action)
    requires Valid(w) && Enabled(w, a) && a.Do? && a.op.Succeed?
    ensures w.runs[a.i].claimed
  {
    assert RunAt(w, a.i);
  }

  lemma {:induction false} SuccessComesFrom(w: World, actions: seq<Action>, id: nat)
    requires Valid(w) && IsRun(w, actions) && !(id in w.rows && w.rows[id].status.Succeeded?)
    requires var end := AfterAll(w, actions); id in end.rows && end.rows[id].status.Succeeded?
    ensures exists k :: SucceededAt(AfterAll(w, actions), actions, id, k)
    decreases |actions|
  {
    var a, end := actions[0], AfterAll(w, actions);
    var next := After(w, a);
    if id in next.rows && next.rows[id].status.Succeeded? {
      SuccessIsOfTheClaimed(w, a);
      RunsRemain(w, actions, a.i);
      assert SucceededAt(end, actions, id, 0);
    } else {
      ValidStays(w, a);
      SuccessComesFrom(next, actions[1..], id);
      var k :| SucceededAt(end, actions[1..], id, k);
      assert SucceededAt(end, actions, id, k + 1);
    }
  }

  /** Conversely, a succeeded row is one whose claimed run wrote its success. */
  lemma {:induction false} SucceededWasWritten(actions: seq<Action>, id: nat)
    requires IsRun(START, actions)
    requires id in AfterAll(START, actions).rows && AfterAll(START, actions).rows[id].status.Succeeded?
    ensures exists k :: SucceededAt(AfterAll(START, actions), actions, id, k)
  {
    SuccessComesFrom(START, actions, id);
  }

  /** Step k of the claimed run i's deployment is over, with this status. */
  ghost predicate StepOver(w: World, i: nat, k: nat, status: StepStatus) {
    && Valid(w) && i < |w.runs| && w.runs[i].claimed && w.runs[i].id in w.rows
    && k < |w.rows[w.runs[i].id].steps| && w.rows[w.runs[i].id].steps[k] == status && !status.StepRunning?
    && k !in w.runs[i].local.open && k < w.runs[i].local.next
  }

  lemma {:induction false} StepStaysOver(w: World, a: Action, i: nat, k: nat, status: StepStatus)
    requires StepOver(w, i, k, status) && Enabled(w, a)
    ensures StepOver(After(w, a), i, k, status)
  {
    RunsKeepIds(w, a, i);
    ValidStays(w, a);
    if a.Do? && w.runs[a.i].id == w.runs[i].id && (a.op.Start? || a.op.Finish? || a.op.SweepSteps?) {
      OnlyTheClaimedEnds(w, a, i);
    }
  }

  lemma {:induction false} StepOverLater(w: World, later: seq<Action>, i: nat, k: nat, status: StepStatus)
    requires StepOver(w, i, k, status) && IsRun(w, later)
    ensures StepOver(AfterAll(w, later), i, k, status)
    decreases |later|
  {
    if later != [] {
      StepStaysOver(w, later[0], i, k, status);
      StepOverLater(After(w, later[0]), later[1..], i, k, status);
    }
  }

  /** A step that its run finished has that status for good, over all interleavings. */
  lemma {:induction false} FinishedStepsStand(before: seq<Action>, i: nat, k: nat, ok: bool, later: seq<Action>)
    requires IsRun(START, before + [Do(i, Finish(k, ok))] + later)
    ensures var end := AfterAll(START, before + [Do(i, Finish(k, ok))] + later);
      && i < |end.runs| && end.runs[i].id in end.rows && k < |end.rows[end.runs[i].id].steps|
      && end.rows[end.runs[i].id].steps[k] == if ok then StepSucceeded else StepFailed
  {
    SplitRun(before, Do(i, Finish(k, ok)), later);
    var w := AfterAll(START, before);
    OpenIsBelow(before, i);
    assert RunAt(w, i);
    RunsKeepIds(w, Do(i, Finish(k, ok)), i);
    StepOverLater(After(w, Do(i, Finish(k, ok))), later, i, k, if ok then StepSucceeded else StepFailed);
  }

  lemma {:induction false} OpenIsBelow(actions: seq<Action>, i: nat)
    requires IsRun(START, actions) && i < |AfterAll(START, actions).runs|
    ensures var l := AfterAll(START, actions).runs[i].local; forall k :: k in l.open ==> k < l.next
    decreases |actions|
  {
    var n := |actions| - 1;
    if actions != [] {
      assert actions == actions[..n] + [actions[n]];
      RunAppend(START, actions[..n], [actions[n]]);
      OneMore(AfterAll(START, actions[..n]), actions[n]);
      if i < |AfterAll(START, actions[..n]).runs| {
        OpenIsBelow(actions[..n], i);
      }
    }
  }

  /** Action n finished step k of the deployment well. */
  ghost predicate FinishedAt(end: World, actions: seq<Action>, id: nat, k: nat, n: int) {
    && 0 <= n < |actions| && actions[n].Do? && actions[n].op == Finish(k, true)
    && actions[n].i < |end.runs| && end.runs[actions[n].i].id == id
  }

  ghost predicate StepSucceededIn(w: World, id: nat, k: nat) {
    id in w.rows && k < |w.rows[id].steps| && w.rows[id].steps[k].StepSucceeded?
  }

  lemma {:induction false} StepSuccessComesFrom(w: World, actions: seq<Action>, id: nat, k: nat)
    requires IsRun(w, actions) && !StepSucceededIn(w, id, k) && StepSucceededIn(AfterAll(w, actions), id, k)
    ensures exists n :: FinishedAt(AfterAll(w, actions), actions, id, k, n)
    decreases |actions|
  {
    var a, end := actions[0], AfterAll(w, actions);
    var next := After(w, a);
    if StepSucceededIn(next, id, k) {
      RunsRemain(w, actions, a.i);
      assert FinishedAt(end, actions, id, k, 0);
    } else {
      StepSuccessComesFrom(next, actions[1..], id, k);
      var n :| FinishedAt(end, actions[1..], id, k, n);
      assert FinishedAt(end, actions, id, k, n + 1);
    }
  }

  /** Conversely, a succeeded step is one that a run of the deployment finished well; the sweeps only fail steps. */
  lemma {:induction false} SucceededStepWasFinished(actions: seq<Action>, id: nat, k: nat)
    requires IsRun(START, actions) && StepSucceededIn(AfterAll(START, actions), id, k)
    ensures exists n :: FinishedAt(AfterAll(START, actions), actions, id, k, n)
  {
    StepSuccessComesFrom(START, actions, id, k);
  }

  /** The k-th action was the crash of run i's process, after the run was delivered. */
  ghost predicate CrashedAt(actions: seq<Action>, i: nat, k: int) {
    && 0 <= k < |actions| && IsRun(START, actions[..k]) && i < |AfterAll(START, actions[..k]).runs|
    && actions[k] == Crash(AfterAll(START, actions[..k]).runs[i].proc)
  }

  /** A crash ends the runs of its process, and nothing else ends a run without its own doing. */
  lemma {:induction false} CrashedExactly(actions: seq<Action>, i: nat)
    requires IsRun(START, actions) && i < |AfterAll(START, actions).runs|
    ensures AfterAll(START, actions).runs[i].local.pc.Crashed? <==> exists k :: CrashedAt(actions, i, k)
  {
    if actions != [] {
      var n := |actions| - 1;
      var before, a := actions[..n], actions[n];
      assert actions == before + [a] + [];
      SplitRun(before, a, []);
      var w := AfterAll(START, before);
      if i < |w.runs| {
        CrashedExactly(before, i);
        CrashedNext(w, a, i);
        if w.runs[i].local.pc.Crashed? {
          var k :| CrashedAt(before, i, k);
          assert CrashedAt(actions, i, k) by { assert actions[..k] == before[..k]; }
        }
        assert a == Crash(w.runs[i].proc) ==> CrashedAt(actions, i, n);
      }
      if k :| CrashedAt(actions, i, k) && k < n {
        assert actions[..k] == before[..k] && CrashedAt(before, i, k);
        assert before == before[..k] + before[k..];
        RunAppend(START, before[..k], before[k..]);
        RunsRemain(AfterAll(START, before[..k]), before[k..], i);
      }
    }
  }

  lemma {:induction false} CrashedNext(w: World, a: Action, i: nat)
    requires Enabled(w, a) && i < |w.runs|
    ensures i < |After(w, a).runs| && After(w, a).runs[i].proc == w.runs[i].proc
    ensures After(w, a).runs[i].local.pc.Crashed? <==> w.runs[i].local.pc.Crashed? || a == Crash(w.runs[i].proc)
  {
  }

  // ---- what the code does not give ----

  lemma {:induction false} Prepend(w: World, a: Action, rest: seq<Action>)
    requires Enabled(w, a) && IsRun(After(w, a), rest)
    ensures IsRun(w, [a] + rest) && AfterAll(w, [a] + rest) == AfterAll(After(w, a), rest)
  {
    assert ([a] + rest)[1..] == rest;
  }

  /** One claimed run of deployment 1 in process 0, its controller registered. */
  const CLAIMED_WORLD := World(map[1 := Row(Running, [], false)], [Run(1, 0, true, Local(Resolving, {}, 0))],
                               map[(0, 1) := false])

  const CLAIM_ACTIONS := [Enqueue(1)] + ([Deliver(1, 0)] + ([Do(0, Claim(true))] + [Do(0, Register)]))

  lemma {:induction false} ClaimActions(rest: seq<Action>)
    requires IsRun(CLAIMED_WORLD, rest)
    ensures IsRun(START, CLAIM_ACTIONS + rest) && AfterAll(START, CLAIM_ACTIONS + rest) == AfterAll(CLAIMED_WORLD, rest)
  {
    var w1 := After(START, Enqueue(1));
    var w2 := After(w1, Deliver(1, 0));
    var w3 := After(w2, Do(0, Claim(true)));
    assert w3.rows == map[1 := Row(Running, [], false)];
    assert After(w3, Do(0, Register)) == CLAIMED_WORLD;
    Prepend(w3, Do(0, Register), rest);
    Prepend(w2, Do(0, Claim(true)), [Do(0, Register)] + rest);
    Prepend(w1, Deliver(1, 0), [Do(0, Claim(true))] + ([Do(0, Register)] + rest));
    Prepend(START, Enqueue(1), [Deliver(1, 0)] + ([Do(0, Claim(true))] + ([Do(0, Register)] + rest)));
    assert CLAIM_ACTIONS + rest
        == [Enqueue(1)] + ([Deliver(1, 0)] + ([Do(0, Claim(true))] + ([Do(0, Register)] + rest)));
  }

  /** executeDeploy's own comment (195-196) says failures land in the row. Resolving the target is outside its
      try: this run is over, its process is up, and its row is still running. */
  lemma {:induction false} FailedResolutionStrandsTheRow()
    ensures var actions := CLAIM_ACTIONS + [Do(0, TargetThrows)];
      && IsRun(START, actions)
      && AfterAll(START, actions).rows == map[1 := Row(Running, [], false)]
      && AfterAll(START, actions).runs == [Run(1, 0, true, Local(Escaped, {}, 0))]
  {
    Prepend(CLAIMED_WORLD, Do(0, TargetThrows), []);
    assert [Do(0, TargetThrows)] + [] == [Do(0, TargetThrows)];
    ClaimActions([Do(0, TargetThrows)]);
  }

  /** The boot sweep finishes rows, not steps: after a crash a failed row keeps a running step. */
  lemma {:induction false} SweepLeavesSteps()
    ensures var actions := CLAIM_ACTIONS + ([Do(0, Enter)] + ([Do(0, Start)] + ([Crash(0)] + [BootSweep])));
      && IsRun(START, actions)
      && AfterAll(START, actions).rows == map[1 := Row(Failed, [StepRunning], false)]
  {
    var w1 := After(CLAIMED_WORLD, Do(0, Enter));
    var w2 := After(w1, Do(0, Start));
    assert [] + [StepRunning] == [StepRunning];
    assert w2.rows == map[1 := Row(Running, [StepRunning], false)];
    var w3 := After(w2, Crash(0));
    assert After(w3, BootSweep).rows == map[1 := Row(Failed, [StepRunning], false)];
    Prepend(w3, BootSweep, []);
    assert [BootSweep] + [] == [BootSweep];
    Prepend(w2, Crash(0), [BootSweep]);
    Prepend(w1, Do(0, Start), [Crash(0)] + [BootSweep]);
    Prepend(CLAIMED_WORLD, Do(0, Enter), [Do(0, Start)] + ([Crash(0)] + [BootSweep]));
    ClaimActions([Do(0, Enter)] + ([Do(0, Start)] + ([Crash(0)] + [BootSweep])));
  }

  /** Nor does a handler whose write is rejected: the run is over, nothing crashed, and its row is running with a
      running step. */
  lemma {:induction false} RejectedHandlerStrandsTheRow()
    ensures var actions := CLAIM_ACTIONS
        + ([Do(0, Enter)] + ([Do(0, Start)] + ([Do(0, Throw(false))] + ([Do(0, WriteRejects)] + [Do(0, Clear)]))));
      && IsRun(START, actions)
      && AfterAll(START, actions).rows == map[1 := Row(Running, [StepRunning], false)]
      && AfterAll(START, actions).runs == [Run(1, 0, true, Local(Rejected, {0}, 1))]
  {
    var w1 := After(CLAIMED_WORLD, Do(0, Enter));
    var w2 := After(w1, Do(0, Start));
    assert [] + [StepRunning] == [StepRunning];
    assert {} + {0} == {0};
    assert w2.rows == map[1 := Row(Running, [StepRunning], false)];
    assert w2.runs == [Run(1, 0, true, Local(Working, {0}, 1))];
    var w3 := After(w2, Do(0, Throw(false)));
    var w4 := After(w3, Do(0, WriteRejects));
    var w5 := After(w4, Do(0, Clear));
    assert w5.runs == [Run(1, 0, true, Local(Rejected, {0}, 1))];
    Prepend(w4, Do(0, Clear), []);
    assert [Do(0, Clear)] + [] == [Do(0, Clear)];
    Prepend(w3, Do(0, WriteRejects), [Do(0, Clear)]);
    Prepend(w2, Do(0, Throw(false)), [Do(0, WriteRejects)] + [Do(0, Clear)]);
    Prepend(w1, Do(0, Start), [Do(0, Throw(false))] + ([Do(0, WriteRejects)] + [Do(0, Clear)]));
    Prepend(CLAIMED_WORLD, Do(0, Enter),
            [Do(0, Start)] + ([Do(0, Throw(false))] + ([Do(0, WriteRejects)] + [Do(0, Clear)])));
    ClaimActions([Do(0, Enter)]
                 + ([Do(0, Start)] + ([Do(0, Throw(false))] + ([Do(0, WriteRejects)] + [Do(0, Clear)]))));
  }
}
