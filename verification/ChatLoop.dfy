/** The tool loop of chat/loop.ts. Every await is one entry of an effect log, and every injected
    dependency is an arbitrary function of the log so far, so a theorem about runs holds for every
    model, user and tool. */
module ChatLoop {
  import opened Text
  import Fence

  const REQUEST_INPUT := "request_input"
  const PROPOSE_PLAN := "propose_plan"
  const PLAN_TURN_CAP := 40

  const INPUT_CANCELLED := "The user cancelled the input request."
  const INPUT_UNAVAILABLE := "Input collection isn't available on this transport; ask the user in chat instead."
  const PLAN_APPROVED := "Plan approved. Execute the steps in order — you don't need to re-request approval "
    + "for the plan's write steps, but destructive steps still require individual "
    + "confirmation. Report each result before the next, and stop if one fails."
  const PLAN_REJECTED := "The user did not approve the plan. Ask what they'd like to change instead of proceeding."
  const PLAN_UNAVAILABLE :=
    "Plan approval isn't available on this transport; " + "proceed conservatively, confirming each action."
  const TOOL_DECLINED := "The user declined this action."
  const TOOL_UNAVAILABLE := "This action needs confirmation and isn't available on this transport."

  datatype Risk = Read | Write | Destructive

  /** How a promise settles. */
  datatype Answer<+T> = Resolved(value: T) | Rejected(message: string)

  /** What reading `.tool` off one entry of a plan's steps gives: a string, anything else, or a TypeError. */
  datatype PlanStep = Names(tool: string) | NamesNothing | Nullish

  /** A tool's arguments: their text, and the entries of `steps` ([] when that is no array). */
  datatype ToolInput = ToolInput(text: string, steps: seq<PlanStep>)

  datatype Use = Use(id: string, name: string, input: ToolInput)

  datatype Block = TextBlock(text: string) | UseBlock(use: Use)

  datatype Tokens = Tokens(input: int, output: int, cacheRead: Option<int>, cacheWrite: Option<int>)

  datatype Usage = Usage(input: int, output: int, cacheRead: int, cacheWrite: int)

  datatype Reply = Reply(content: seq<Block>, stopReason: Option<string>, usage: Option<Tokens>)

  datatype ToolResult = ToolResult(id: string, content: string, isError: bool)

  datatype Message =
    | Earlier(role: string, text: string)
    | Assistant(content: seq<Block>)
    | Results(results: seq<ToolResult>)

  datatype ToolEvent = ToolEvent(tool: string, input: ToolInput, result: string, isError: bool)

  datatype ToolOut = ToolOut(text: string, isError: bool, trusted: bool)

  datatype Effect =
    | CallModel(sent: seq<Message>, reply: Answer<Reply>)
    | AskInput(fields: ToolInput, given: Answer<Option<string>>)
    | AskPlan(plan: ToolInput, agreed: Answer<bool>)
    | AskApproval(tool: string, input: ToolInput, risk: Risk, approved: Answer<bool>)
    | Exec(tool: string, input: ToolInput, out: Answer<ToolOut>)

  type Log = seq<Effect>

  /** The injected dependencies; an optional one that is None is absent on the transport. The answers of
      requestInput are given as their JSON text. */
  datatype Deps = Deps(
    model: (Log, seq<Message>) -> Answer<Reply>,
    exec: (Log, string, ToolInput) -> Answer<ToolOut>,
    riskOf: Option<string -> Risk>,
    requestApproval: Option<(Log, string, ToolInput, Risk) -> Answer<bool>>,
    requestInput: Option<(Log, ToolInput) -> Answer<Option<string>>>,
    requestPlan: Option<(Log, ToolInput) -> Answer<bool>>,
    shouldAbort: Log -> bool)
  {
    function RiskOf(tool: string): Risk {
      if riskOf.Some? then riskOf.value(tool) else Read
    }
  }

  predicate IsMeta(tool: string) {
    tool == REQUEST_INPUT || tool == PROPOSE_PLAN
  }

  // ---- what a log says ----

  function Last(log: Log): Effect
    requires log != []
  {
    log[|log| - 1]
  }

  /** The last thing that happened is the user's yes to this very use. */
  predicate JustApproved(before: Log, tool: string, input: ToolInput, risk: Risk) {
    before != [] && before[|before| - 1] == AskApproval(tool, input, risk, Resolved(true))
  }

  /** The steps the granting loop reads before one throws. */
  function Readable(steps: seq<PlanStep>): seq<PlanStep> {
    if steps == [] || steps[0].Nullish? then [] else [steps[0]] + Readable(steps[1..])
  }

  /** Write-risk steps that name the tool. */
  function Grants(d: Deps, steps: seq<PlanStep>, tool: string): nat {
    if steps == [] then 0
    else Grants(d, steps[..|steps| - 1], tool)
         + if steps[|steps| - 1] == Names(tool) && d.RiskOf(tool) == Write then 1 else 0
  }

  function GrantedBy(d: Deps, e: Effect, tool: string): nat {
    if e.AskPlan? && e.agreed == Resolved(true) then Grants(d, Readable(e.plan.steps), tool) else 0
  }

  /** The auto-runs of a tool that all plans approved so far allow. */
  function Granted(d: Deps, log: Log, tool: string): nat {
    if log == [] then 0
    else Granted(d, log[..|log| - 1], tool) + GrantedBy(d, log[|log| - 1], tool)
  }

  predicate IsAutoRun(d: Deps, before: Log, e: Effect, tool: string) {
    e.Exec? && e.tool == tool && d.RiskOf(tool) == Write && !JustApproved(before, tool, e.input, Write)
  }

  /** Runs of a write tool that no approval of that use preceded. */
  function AutoRuns(d: Deps, log: Log, tool: string): nat {
    if log == [] then 0
    else AutoRuns(d, log[..|log| - 1], tool) + if IsAutoRun(d, log[..|log| - 1], log[|log| - 1], tool) then 1 else 0
  }

  ghost predicate GrantLeft(d: Deps, log: Log, tool: string) {
    d.RiskOf(tool) == Write && AutoRuns(d, log, tool) < Granted(d, log, tool)
  }

  /** The gate: what must have happened before a tool runs. */
  ghost predicate MayRun(d: Deps, before: Log, tool: string, input: ToolInput) {
    && !IsMeta(tool)
    && (d.RiskOf(tool) == Read || JustApproved(before, tool, input, d.RiskOf(tool)) || GrantLeft(d, before, tool))
  }

  /** One effect is lawful after a log: the answer is the environment's own, a prompt is needed, a run is consented. */
  ghost predicate Lawful(d: Deps, before: Log, e: Effect) {
    match e
    case CallModel(sent, reply) => !d.shouldAbort(before) && reply == d.model(before, sent)
    case AskInput(fields, given) => d.requestInput.Some? && given == d.requestInput.value(before, fields)
    case AskPlan(plan, agreed) => d.requestPlan.Some? && agreed == d.requestPlan.value(before, plan)
    case AskApproval(tool, input, risk, approved) =>
      && risk == d.RiskOf(tool) && risk != Read && !IsMeta(tool) && !GrantLeft(d, before, tool)
      && d.requestApproval.Some? && approved == d.requestApproval.value(before, tool, input, risk)
    case Exec(tool, input, out) => MayRun(d, before, tool, input) && out == d.exec(before, tool, input)
  }

  ghost predicate LawfulLog(d: Deps, log: Log) {
    log == [] || (LawfulLog(d, log[..|log| - 1]) && Lawful(d, log[..|log| - 1], log[|log| - 1]))
  }

  function Calls(log: Log): nat {
    if log == [] then 0 else Calls(log[..|log| - 1]) + if log[|log| - 1].CallModel? then 1 else 0
  }

  predicate AgreedPlan(e: Effect) {
    e.AskPlan? && e.agreed == Resolved(true) && Nullish !in e.plan.steps
  }

  predicate PlanAgreed(log: Log) {
    exists i :: 0 <= i < |log| && AgreedPlan(log[i])
  }

  /** The turn budget: an agreed plan of n steps in turn t raises it to t + 2n + 2, and caps it. */
  function BudgetOf(maxTurns: int, log: Log): int {
    if log == [] then maxTurns
    else
      var before := BudgetOf(maxTurns, log[..|log| - 1]);
      var e := log[|log| - 1];
      if AgreedPlan(e) then Min(PLAN_TURN_CAP, Max(before, Calls(log) + |e.plan.steps| * 2 + 2)) else before
  }

  function Texts(content: seq<Block>): seq<string> {
    if content == [] then []
    else (if content[0].TextBlock? then [content[0].text] else []) + Texts(content[1..])
  }

  function Uses(content: seq<Block>): seq<Use> {
    if content == [] then []
    else (if content[0].UseBlock? then [content[0].use] else []) + Uses(content[1..])
  }

  function TextAfter(last: string, reply: Reply): string {
    if Texts(reply.content) != [] then Join(Texts(reply.content), "\n") else last
  }

  /** The text of the last reply that has any. */
  function LastText(log: Log): string {
    if log == [] then ""
    else
      var e := log[|log| - 1];
      if e.CallModel? && e.reply.Resolved? then TextAfter(LastText(log[..|log| - 1]), e.reply.value)
      else LastText(log[..|log| - 1])
  }

  function Added(u: Usage, t: Option<Tokens>): Usage {
    if t.None? then u
    else Usage(u.input + t.value.input, u.output + t.value.output,
               u.cacheRead + t.value.cacheRead.GetOr(0), u.cacheWrite + t.value.cacheWrite.GetOr(0))
  }

  /** Token use summed over the calls. */
  function UsageOf(log: Log): Usage {
    if log == [] then Usage(0, 0, 0, 0)
    else
      var e := log[|log| - 1];
      if e.CallModel? && e.reply.Resolved? then Added(UsageOf(log[..|log| - 1]), e.reply.value.usage)
      else UsageOf(log[..|log| - 1])
  }

  // ---- the same, one effect at a time ----

  lemma {:induction false} Snoc(d: Deps, log: Log, e: Effect)
    ensures (log + [e])[..|log|] == log
    ensures LawfulLog(d, log + [e]) <==> LawfulLog(d, log) && Lawful(d, log, e)
    ensures Calls(log + [e]) == Calls(log) + if e.CallModel? then 1 else 0
  {
    assert (log + [e])[..|log|] == log;
  }

  lemma {:induction false} SnocBudget(log: Log, e: Effect, maxTurns: int)
    ensures !AgreedPlan(e) ==> BudgetOf(maxTurns, log + [e]) == BudgetOf(maxTurns, log)
    ensures AgreedPlan(e) ==>
      BudgetOf(maxTurns, log + [e])
      == Min(PLAN_TURN_CAP, Max(BudgetOf(maxTurns, log), Calls(log) + |e.plan.steps| * 2 + 2))
  {
    assert (log + [e])[..|log|] == log;
  }

  lemma {:induction false} SnocText(log: Log, e: Effect)
    ensures !(e.CallModel? && e.reply.Resolved?) ==>
            LastText(log + [e]) == LastText(log) && UsageOf(log + [e]) == UsageOf(log)
    ensures e.CallModel? && e.reply.Resolved? ==>
      LastText(log + [e]) == TextAfter(LastText(log), e.reply.value)
        && UsageOf(log + [e]) == Added(UsageOf(log), e.reply.value.usage)
  {
    assert (log + [e])[..|log|] == log;
  }

  lemma {:induction false} SnocGrants(d: Deps, log: Log, e: Effect, tool: string)
    ensures Granted(d, log + [e], tool) == Granted(d, log, tool) + GrantedBy(d, e, tool)
    ensures AutoRuns(d, log + [e], tool) == AutoRuns(d, log, tool) + if IsAutoRun(d, log, e, tool) then 1 else 0
  {
    assert (log + [e])[..|log|] == log;
  }

  /** No approval is waiting for its run: the state between two tool uses. */
  predicate BetweenUses(log: Log) {
    log != [] ==> !(log[|log| - 1].AskApproval? && log[|log| - 1].approved == Resolved(true))
  }

  // ---- what each tool use gets ----

  /** One tool use: the effects it caused, the event shown to the user, the result fed to the model. */
  datatype Served = Served(use: Use, effects: Log, event: ToolEvent, result: ToolResult)

  ghost predicate InputServed(d: Deps, s: Served) {
    && s.result.content == s.event.result
    && if d.requestInput.None? then
         s.effects == [] && s.event.result == INPUT_UNAVAILABLE && s.event.isError
       else
         && |s.effects| == 1 && s.effects[0].AskInput?
         && s.effects[0].fields == s.use.input && s.effects[0].given.Resolved?
         && match s.effects[0].given.value
            case None => s.event.result == INPUT_CANCELLED && s.event.isError
            case Some(answers) => s.event.result == answers && !s.event.isError
  }

  ghost predicate PlanServed(d: Deps, s: Served) {
    && s.result.content == s.event.result
    && if d.requestPlan.None? then
         s.effects == [] && s.event.result == PLAN_UNAVAILABLE && !s.event.isError
       else
         && |s.effects| == 1 && s.effects[0].AskPlan?
         && s.effects[0].plan == s.use.input && s.effects[0].agreed.Resolved?
         && s.event.isError == !s.effects[0].agreed.value
         && s.event.result == if s.effects[0].agreed.value then PLAN_APPROVED else PLAN_REJECTED
  }

  /** The user sees the raw output or error; the model sees it fenced unless the tool called it trusted. */
  ghost predicate RunServed(s: Served, out: Answer<ToolOut>) {
    match out
    case Resolved(o) =>
      && s.event.result == o.text && s.event.isError == o.isError
      && s.result.content == if o.trusted then o.text else Fence.FenceToolResult(o.text, Fence.MAX_TOOL_RESULT_CHARS)
    case Rejected(message) =>
      && s.event.result == message && s.event.isError
      && s.result.content == Fence.FenceToolResult(message, Fence.MAX_TOOL_RESULT_CHARS)
  }

  ghost predicate ToolServed(d: Deps, s: Served) {
    var name, input, risk := s.use.name, s.use.input, d.RiskOf(s.use.name);
    if s.effects == [] then
      && risk != Read && d.requestApproval.None?
      && s.event.result == TOOL_UNAVAILABLE && s.event.isError && s.result.content == s.event.result
    else if s.effects == [AskApproval(name, input, risk, Resolved(false))] then
      s.event.result == TOOL_DECLINED && s.event.isError && s.result.content == s.event.result
    else
      var last := s.effects[|s.effects| - 1];
      && last.Exec? && RunServed(s, last.out)
      && (s.effects == [Exec(name, input, last.out)]
          || s.effects == [AskApproval(name, input, risk, Resolved(true)), Exec(name, input, last.out)])
  }

  ghost predicate WellServed(d: Deps, s: Served) {
    && s.result.id == s.use.id && s.event.tool == s.use.name && s.event.input == s.use.input
    && s.result.isError == s.event.isError
    && if s.use.name == REQUEST_INPUT then InputServed(d, s)
       else if s.use.name == PROPOSE_PLAN then PlanServed(d, s)
       else ToolServed(d, s)
  }

  lemma {:induction false} RanServed(d: Deps, s: Served, asked: Log, out: Answer<ToolOut>)
    requires !IsMeta(s.use.name)
    requires s.effects == [Exec(s.use.name, s.use.input, out)] && RunServed(s, out)
    requires s.result.id == s.use.id && s.event.tool == s.use.name && s.event.input == s.use.input
    requires s.result.isError == s.event.isError
    requires asked == [] || asked == [AskApproval(s.use.name, s.use.input, d.RiskOf(s.use.name), Resolved(true))]
    ensures WellServed(d, s.(effects := asked + s.effects))
    ensures asked != [] ==> asked + s.effects == [asked[0], s.effects[0]]
  {
    var t := s.(effects := asked + s.effects);
    if asked == [] {
      assert t.effects == s.effects;
    } else {
      assert t.effects == [asked[0], s.effects[0]];
    }
  }

  /** The effects of a use that makes the whole loop reject. */
  ghost predicate Breaks(effects: Log) {
    && |effects| == 1
    && match effects[0]
       case AskInput(_, given) => given.Rejected?
       case AskPlan(plan, agreed) => agreed.Rejected? || (agreed.value && Nullish in plan.steps)
       case AskApproval(_, _, _, approved) => approved.Rejected?
       case _ => false
  }

  // ---- rounds: one model reply with its tool uses ----

  datatype Round = Round(reply: Reply, served: seq<Served>)

  function EffectsOf(served: seq<Served>): Log {
    if served == [] then [] else EffectsOf(served[..|served| - 1]) + served[|served| - 1].effects
  }

  function EventsOf(served: seq<Served>): seq<ToolEvent> {
    if served == [] then [] else EventsOf(served[..|served| - 1]) + [served[|served| - 1].event]
  }

  function ResultsOf(served: seq<Served>): seq<ToolResult> {
    if served == [] then [] else ResultsOf(served[..|served| - 1]) + [served[|served| - 1].result]
  }

  function UsesOf(served: seq<Served>): seq<Use> {
    if served == [] then [] else UsesOf(served[..|served| - 1]) + [served[|served| - 1].use]
  }

  ghost predicate AllServed(d: Deps, served: seq<Served>) {
    forall i :: 0 <= i < |served| ==> WellServed(d, served[i])
  }

  /** A reply that asked for tools, each of its uses served once and in order. */
  ghost predicate WellFormed(d: Deps, r: Round) {
    && r.reply.stopReason == Some("tool_use") && r.served != []
    && UsesOf(r.served) == Uses(r.reply.content) && AllServed(d, r.served)
  }

  ghost predicate AllWellFormed(d: Deps, rounds: seq<Round>) {
    forall i :: 0 <= i < |rounds| ==> WellFormed(d, rounds[i])
  }

  /** The transcript: the history, then each echoed reply with the results of its uses. */
  function MessagesOf(history: seq<Message>, rounds: seq<Round>): seq<Message> {
    if rounds == [] then history
    else
      var r := rounds[|rounds| - 1];
      MessagesOf(history, rounds[..|rounds| - 1]) + [Assistant(r.reply.content), Results(ResultsOf(r.served))]
  }

  function AllEvents(rounds: seq<Round>): seq<ToolEvent> {
    if rounds == [] then [] else AllEvents(rounds[..|rounds| - 1]) + EventsOf(rounds[|rounds| - 1].served)
  }

  /** The log of whole rounds: each model call is sent the transcript so far. */
  function LogOf(history: seq<Message>, rounds: seq<Round>): Log {
    if rounds == [] then []
    else
      var before, r := rounds[..|rounds| - 1], rounds[|rounds| - 1];
      LogOf(history, before) + [CallModel(MessagesOf(history, before), Resolved(r.reply))] + EffectsOf(r.served)
  }

  lemma {:induction false} SnocServed(served: seq<Served>, s: Served)
    ensures EffectsOf(served + [s]) == EffectsOf(served) + s.effects
    ensures EventsOf(served + [s]) == EventsOf(served) + [s.event]
    ensures ResultsOf(served + [s]) == ResultsOf(served) + [s.result]
    ensures UsesOf(served + [s]) == UsesOf(served) + [s.use]
  {
    assert (served + [s])[..|served|] == served;
  }

  lemma {:induction false} AllServedNext(d: Deps, served: seq<Served>, s: Served)
    requires AllServed(d, served) && WellServed(d, s)
    ensures AllServed(d, served + [s])
  {
    forall i | 0 <= i < |served| + 1 ensures WellServed(d, (served + [s])[i]) {
      assert (served + [s])[i] == if i < |served| then served[i] else s;
    }
  }

  /** One more tool use served, after an earlier log and earlier events. */
  lemma {:induction false} ServedNext(log: Log, events: seq<ToolEvent>, uses: seq<Use>, served: seq<Served>, s: Served)
    requires |served| < |uses| && UsesOf(served) == uses[..|served|] && s.use == uses[|served|]
    ensures UsesOf(served + [s]) == uses[..|served| + 1]
    ensures log + EffectsOf(served) + s.effects == log + EffectsOf(served + [s])
    ensures events + EventsOf(served) + [s.event] == events + EventsOf(served + [s])
    ensures ResultsOf(served + [s]) == ResultsOf(served) + [s.result]
  {
    SnocServed(served, s);
    PlusAssociates(log, EffectsOf(served), s.effects);
    PlusAssociates(events, EventsOf(served), [s.event]);
    assert uses[..|served| + 1] == uses[..|served|] + [uses[|served|]];
  }

  lemma {:induction false} AllWellFormedNext(d: Deps, rounds: seq<Round>, r: Round)
    requires AllWellFormed(d, rounds) && WellFormed(d, r)
    ensures AllWellFormed(d, rounds + [r])
  {
    forall i | 0 <= i < |rounds| + 1 ensures WellFormed(d, (rounds + [r])[i]) {
      assert (rounds + [r])[i] == if i < |rounds| then rounds[i] else r;
    }
  }

  lemma {:induction false} SnocRound(history: seq<Message>, rounds: seq<Round>, r: Round)
    ensures MessagesOf(history, rounds + [r])
         == MessagesOf(history, rounds) + [Assistant(r.reply.content), Results(ResultsOf(r.served))]
    ensures AllEvents(rounds + [r]) == AllEvents(rounds) + EventsOf(r.served)
    ensures LogOf(history, rounds + [r])
         == LogOf(history, rounds) + [CallModel(MessagesOf(history, rounds), Resolved(r.reply))] + EffectsOf(r.served)
  {
    assert (rounds + [r])[..|rounds|] == rounds;
  }

  lemma {:induction false} ReadablePrefix(steps: seq<PlanStep>, i: nat)
    requires i <= |steps| && Nullish !in steps[..i]
    requires i == |steps| || steps[i] == Nullish
    ensures Readable(steps) == steps[..i]
  {
    if i > 0 {
      assert steps[..i][0] == steps[0];
      assert steps[1..][..i - 1] == steps[..i][1..];
      ReadablePrefix(steps[1..], i - 1);
      assert steps[..i] == [steps[0]] + steps[1..][..i - 1];
    }
  }

  lemma {:induction false} SnocStep(d: Deps, steps: seq<PlanStep>, i: nat, tool: string)
    requires i < |steps|
    ensures Grants(d, steps[..i + 1], tool)
         == Grants(d, steps[..i], tool) + if steps[i] == Names(tool) && d.RiskOf(tool) == Write then 1 else 0
  {
    assert steps[..i + 1][..i] == steps[..i];
  }

  /** How far the budget can move: never past both limits, never down when it starts at most at the cap, and
      with a larger start an agreed plan sets it to the cap. */
  lemma {:induction false} BudgetShape(maxTurns: int, log: Log)
    ensures BudgetOf(maxTurns, log) <= Max(maxTurns, 40)
    ensures maxTurns <= 40 ==> maxTurns <= BudgetOf(maxTurns, log)
    ensures maxTurns > 40 ==> BudgetOf(maxTurns, log) == if PlanAgreed(log) then 40 else maxTurns
    ensures !PlanAgreed(log) ==> BudgetOf(maxTurns, log) == maxTurns
  {
    if log != [] {
      var n := |log| - 1;
      BudgetShape(maxTurns, log[..n]);
      assert PlanAgreed(log) <==> PlanAgreed(log[..n]) || AgreedPlan(log[n]) by {
        if PlanAgreed(log[..n]) {
          var i :| 0 <= i < n && AgreedPlan(log[..n][i]);
          assert AgreedPlan(log[i]);
        }
        if PlanAgreed(log) {
          var i :| 0 <= i < |log| && AgreedPlan(log[i]);
          assert i < n ==> AgreedPlan(log[..n][i]);
        }
      }
    }
  }

  lemma {:induction false} BudgetGrows(maxTurns: int, log: Log, more: Log)
    requires maxTurns <= PLAN_TURN_CAP
    ensures BudgetOf(maxTurns, log) <= BudgetOf(maxTurns, log + more)
    decreases |more|
  {
    if more == [] {
      assert log + more == log;
    } else {
      var n := |more| - 1;
      BudgetGrows(maxTurns, log, more[..n]);
      BudgetShape(maxTurns, log + more[..n]);
      assert (log + more)[..|log| + n] == log + more[..n];
    }
  }

  lemma {:induction false} AgreedStays(log: Log, more: Log)
    ensures PlanAgreed(log) ==> PlanAgreed(log + more)
  {
    if PlanAgreed(log) {
      var i :| 0 <= i < |log| && AgreedPlan(log[i]);
      assert AgreedPlan((log + more)[i]);
    }
  }

  /** The calls made are within the budget, unless a plan agreed late pulled a large budget below them. */
  ghost predicate InBudget(maxTurns: int, log: Log) {
    Calls(log) == 0 || Calls(log) <= BudgetOf(maxTurns, log) || (maxTurns > PLAN_TURN_CAP && PlanAgreed(log))
  }

  lemma {:induction false} TurnStaysInBudget(maxTurns: int, log: Log, more: Log)
    requires Calls(log) < BudgetOf(maxTurns, log) && Calls(log + more) <= Calls(log) + 1
    ensures InBudget(maxTurns, log + more)
  {
    BudgetShape(maxTurns, log);
    BudgetShape(maxTurns, log + more);
    if maxTurns <= PLAN_TURN_CAP {
      BudgetGrows(maxTurns, log, more);
    } else {
      AgreedStays(log, more);
    }
  }

  function AllowanceIn(grants: map<string, nat>, tool: string): nat {
    if tool in grants then grants[tool] else 0
  }

  /** Grant conservation: what is left and what was used is what was granted, for each tool. */
  ghost predicate ConservedBy(d: Deps, grants: map<string, nat>, log: Log) {
    forall tool: string :: AllowanceIn(grants, tool) + AutoRuns(d, log, tool) == Granted(d, log, tool)
  }

  /** An effect that neither grants nor uses a grant. */
  lemma {:induction false} ConservedQuietly(d: Deps, log: Log, e: Effect, grants: map<string, nat>)
    requires ConservedBy(d, grants, log)
    requires forall tool: string :: GrantedBy(d, e, tool) == 0 && !IsAutoRun(d, log, e, tool)
    ensures ConservedBy(d, grants, log + [e])
  {
    forall tool: string
      ensures AllowanceIn(grants, tool) + AutoRuns(d, log + [e], tool) == Granted(d, log + [e], tool)
    {
      SnocGrants(d, log, e, tool);
    }
  }

  /** A run takes one grant of its tool if it was not asked for, and none otherwise. */
  lemma {:induction false} ConservedRun(d: Deps, log: Log, e: Effect, before: map<string, nat>, after: map<string, nat>)
    requires ConservedBy(d, before, log) && e.Exec?
    requires
      if IsAutoRun(d, log, e, e.tool) then
        AllowanceIn(before, e.tool) > 0 && after == before[e.tool := before[e.tool] - 1]
             else after == before
    ensures ConservedBy(d, after, log + [e])
  {
    forall tool: string ensures AllowanceIn(after, tool) + AutoRuns(d, log + [e], tool) == Granted(d, log + [e], tool) {
      SnocGrants(d, log, e, tool);
      assert AllowanceIn(before, tool) + AutoRuns(d, log, tool) == Granted(d, log, tool);
    }
  }

  // ---- the loop ----

  /** How a run ends: with the model's answer, stopped by the client, out of turns, or by a rejection. */
  datatype Ending = Final | Aborted | Exhausted | Threw

  /** The numeral of an integer, as a template literal prints it. */
  /** String(n). */
  function Signed(n: int): (s: string)
    ensures n >= 0 ==> s == Decimal(n)
    ensures n < 0 ==> s == "-" + Decimal(-n)
  {
    if n < 0 then "-" + Decimal(-n) else Decimal(n)
  }

  function Or(text: string, fallback: string): (s: string)
    ensures text != "" ==> s == text
    ensures text == "" ==> s == fallback
  {
    if text == "" then fallback else text
  }

  lemma {:induction false} TailOfPass(before: Log, call: Effect, effects: Log, broken: Log)
    ensures before + [call] + effects + broken == before + ([call] + effects + broken)
    ensures ([call] + effects + broken)[0] == call
    ensures |broken| == 1 ==> [Last([call] + effects + broken)] == broken
  {
  }

  datatype Result = Result(ending: Ending, text: string, toolEvents: seq<ToolEvent>, turns: int, usage: Usage)

  /** The model answered without asking for a tool. */
  ghost predicate Answered(history: seq<Message>, rounds: seq<Round>, tail: Log) {
    && |tail| == 1 && tail[0].CallModel? && tail[0].sent == MessagesOf(history, rounds) && tail[0].reply.Resolved?
    && (tail[0].reply.value.stopReason != Some("tool_use") || Uses(tail[0].reply.value.content) == [])
  }

  /** The model call, or something it asked for, rejected. */
  ghost predicate Broken(history: seq<Message>, rounds: seq<Round>, tail: Log) {
    && tail != [] && tail[0].CallModel? && tail[0].sent == MessagesOf(history, rounds)
    && ((tail[0].reply.Rejected? && |tail| == 1) || Breaks([Last(tail)]))
  }

  /** What a run that made whole `rounds` and then `tail` may return. */
  ghost predicate Ended(d: Deps, history: seq<Message>, maxTurns: int, rounds: seq<Round>, tail: Log, r: Result) {
    var log := LogOf(history, rounds) + tail;
    match r.ending
    case Final => Answered(history, rounds, tail) && r.text == LastText(log) && r.turns == Calls(log)
    case Aborted =>
      tail == [] && d.shouldAbort(log) && r.text == Or(LastText(log), "(stopped)") && r.turns == Calls(log)
    case Exhausted =>
      && tail == [] && Calls(log) >= BudgetOf(maxTurns, log) == r.turns
      && r.text == Or(LastText(log), "(stopped after " + Signed(r.turns) + " tool turns without a final answer)")
    case Threw => Broken(history, rounds, tail)
  }

  class ToolLoop {
    const d: Deps
    const maxTurns: int
    var messages: seq<Message>
    var toolEvents: seq<ToolEvent>
    var approvedWriteRuns: map<string, nat>
    var budget: int
    var lastText: string
    var usage: Usage
    var log: Log

    constructor (d: Deps, history: seq<Message>, maxTurns: int)
      ensures this.d == d && this.maxTurns == maxTurns
      ensures messages == history && toolEvents == [] && log == [] && Valid()
    {
      this.d := d;
      this.maxTurns := maxTurns;
      messages, toolEvents, log := history, [], [];
      approvedWriteRuns, budget, lastText, usage := map[], maxTurns, "", Usage(0, 0, 0, 0);
    }

    function Allowance(tool: string): nat
      reads this`approvedWriteRuns
    {
      AllowanceIn(approvedWriteRuns, tool)
    }

    ghost predicate Conserved()
      reads this`approvedWriteRuns, this`log
    {
      ConservedBy(d, approvedWriteRuns, log)
    }

    /** The loop's variables are what its log says. */
    ghost predicate Valid()
      reads this`approvedWriteRuns, this`log, this`budget, this`lastText, this`usage
    {
      && LawfulLog(d, log) && Conserved()
      && budget == BudgetOf(maxTurns, log) && lastText == LastText(log) && usage == UsageOf(log)
    }

    /** One effect that grants nothing, uses no grant and is no model call. */
    method Record(e: Effect)
      requires Valid() && Lawful(d, log, e) && !e.CallModel?
      requires !(e.AskPlan? && e.agreed == Resolved(true))
      requires forall tool :: !IsAutoRun(d, log, e, tool)
      modifies this`log
      ensures Valid() && log == old(log) + [e] && Calls(log) == Calls(old(log))
    {
      Snoc(d, log, e);
      SnocBudget(log, e, maxTurns);
      SnocText(log, e);
      ConservedQuietly(d, log, e, approvedWriteRuns);
      log := log + [e];
    }

    method AnswerInput(use: Use) returns (ok: bool, s: Served)
      requires Valid() && BetweenUses(log) && use.name == REQUEST_INPUT
      modifies this`log, this`toolEvents
      ensures Valid() && Calls(log) == Calls(old(log))
      ensures log == old(log) + s.effects && s.use == use
      ensures ok ==> BetweenUses(log) && WellServed(d, s) && toolEvents == old(toolEvents) + [s.event]
      ensures !ok ==> Breaks(s.effects)
    {
      var answers: Option<string> := None;
      var effects: Log := [];
      if d.requestInput.Some? {
        var given := d.requestInput.value(log, use.input);
        effects := [AskInput(use.input, given)];
        Record(AskInput(use.input, given));
        if given.Rejected? {
          return false, Served(use, effects, ToolEvent("", use.input, "", false), ToolResult("", "", false));
        }
        answers := given.value;
      }
      var text := match answers
        case None => if d.requestInput.Some? then INPUT_CANCELLED else INPUT_UNAVAILABLE
        case Some(json) => json;
      var event := ToolEvent(use.name, use.input, text, answers.None?);
      toolEvents := toolEvents + [event];
      return true, Served(use, effects, event, ToolResult(use.id, text, answers.None?));
    }

    /** The auto-runs of an approved plan; a step that is null throws after the steps before it were granted. */
    method Grant(steps: seq<PlanStep>) returns (thrown: bool)
      modifies this`approvedWriteRuns
      ensures thrown <==> Nullish in steps
      ensures forall tool :: Allowance(tool) == old(Allowance(tool)) + Grants(d, Readable(steps), tool)
    {
      var i := 0;
      while i < |steps|
        invariant i <= |steps| && Nullish !in steps[..i]
        invariant forall tool :: Allowance(tool) == old(Allowance(tool)) + Grants(d, steps[..i], tool)
      {
        if steps[i].Nullish? {
          ReadablePrefix(steps, i);
          return true;
        }
        forall tool ensures Grants(d, steps[..i + 1], tool)
          == Grants(d, steps[..i], tool) + if steps[i] == Names(tool) && d.RiskOf(tool) == Write then 1 else 0
        {
          SnocStep(d, steps, i, tool);
        }
        if steps[i].Names? && d.RiskOf(steps[i].tool) == Write {
          var tool := steps[i].tool;
          approvedWriteRuns := approvedWriteRuns[tool := Allowance(tool) + 1];
        }
        i := i + 1;
      }
      assert steps[..i] == steps;
      ReadablePrefix(steps, i);
      return false;
    }

    /** The user's yes to a plan, and what it grants. */
    method AcceptPlan(use: Use, turn: nat) returns (thrown: bool)
      requires Valid() && turn == Calls(log)
      requires Lawful(d, log, AskPlan(use.input, Resolved(true)))
      modifies this`log, this`approvedWriteRuns, this`budget
      ensures Valid() && log == old(log) + [AskPlan(use.input, Resolved(true))] && Calls(log) == Calls(old(log))
      ensures thrown <==> Nullish in use.input.steps
    {
      ghost var before := log;
      var e := AskPlan(use.input, Resolved(true));
      Snoc(d, log, e);
      SnocBudget(log, e, maxTurns);
      SnocText(log, e);
      log := log + [e];
      thrown := Grant(use.input.steps);
      forall tool: string ensures Allowance(tool) + AutoRuns(d, log, tool) == Granted(d, log, tool) {
        SnocGrants(d, before, e, tool);
      }
      if !thrown {
        budget := Min(PLAN_TURN_CAP, Max(budget, turn + |use.input.steps| * 2 + 2));
      }
    }

    method AnswerPlan(use: Use, turn: nat) returns (ok: bool, s: Served)
      requires Valid() && BetweenUses(log) && use.name == PROPOSE_PLAN && turn == Calls(log)
      modifies this`log, this`toolEvents, this`approvedWriteRuns, this`budget
      ensures Valid() && Calls(log) == Calls(old(log))
      ensures log == old(log) + s.effects && s.use == use
      ensures ok ==> BetweenUses(log) && WellServed(d, s) && toolEvents == old(toolEvents) + [s.event]
      ensures !ok ==> Breaks(s.effects)
    {
      var approved := false;
      var effects: Log := [];
      if d.requestPlan.Some? {
        var agreed := d.requestPlan.value(log, use.input);
        effects := [AskPlan(use.input, agreed)];
        var thrown := agreed.Rejected?;
        if agreed == Resolved(true) {
          thrown := AcceptPlan(use, turn);
        } else {
          Record(AskPlan(use.input, agreed));
        }
        if thrown {
          return false, Served(use, effects, ToolEvent("", use.input, "", false), ToolResult("", "", false));
        }
        approved := agreed.value;
      }
      var text := if approved then PLAN_APPROVED else if d.requestPlan.Some? then PLAN_REJECTED else PLAN_UNAVAILABLE;
      var planErr := d.requestPlan.Some? && !approved;
      var event := ToolEvent(use.name, use.input, text, planErr);
      toolEvents := toolEvents + [event];
      return true, Served(use, effects, event, ToolResult(use.id, text, planErr));
    }

    /** execTool of a use that may run; `granted` when it consumes a plan grant. */
    method CallTool(use: Use, granted: bool) returns (out: Answer<ToolOut>)
      requires Valid() && MayRun(d, log, use.name, use.input)
      requires granted <==> d.RiskOf(use.name) == Write && !JustApproved(log, use.name, use.input, Write)
      modifies this`log, this`approvedWriteRuns
      ensures Valid() && Calls(log) == Calls(old(log)) && log == old(log) + [Exec(use.name, use.input, out)]
    {
      assert granted ==> Allowance(use.name) > 0 by {
        assert Allowance(use.name) + AutoRuns(d, log, use.name) == Granted(d, log, use.name);
      }
      if granted {
        approvedWriteRuns := approvedWriteRuns[use.name := Allowance(use.name) - 1];
      }
      out := d.exec(log, use.name, use.input);
      var e := Exec(use.name, use.input, out);
      Snoc(d, log, e);
      SnocBudget(log, e, maxTurns);
      SnocText(log, e);
      ConservedRun(d, log, e, old(approvedWriteRuns), approvedWriteRuns);
      log := log + [e];
    }

    method RunTool(use: Use, granted: bool) returns (s: Served, ghost out: Answer<ToolOut>)
      requires Valid() && MayRun(d, log, use.name, use.input)
      requires granted <==> d.RiskOf(use.name) == Write && !JustApproved(log, use.name, use.input, Write)
      modifies this`log, this`toolEvents, this`approvedWriteRuns
      ensures Valid() && Calls(log) == Calls(old(log)) && s.use == use && s.effects == [Exec(use.name, use.input, out)]
      ensures log == old(log) + s.effects && toolEvents == old(toolEvents) + [s.event]
      ensures s.result.id == use.id && s.event.tool == use.name && s.event.input == use.input
      ensures s.result.isError == s.event.isError && RunServed(s, out)
    {
      var o := CallTool(use, granted);
      var text, isError, trusted := "", true, false;
      match o {
        case Resolved(value) =>
          text, isError, trusted := value.text, value.isError, value.trusted;
        case Rejected(message) =>
          text := message;
      }
      var event := ToolEvent(use.name, use.input, text, isError);
      toolEvents := toolEvents + [event];
      var content := if trusted then text else Fence.FenceToolResult(text, Fence.MAX_TOOL_RESULT_CHARS);
      return Served(use, [Exec(use.name, use.input, o)], event, ToolResult(use.id, content, isError)), o;
    }

    /** requestApproval of a use, or false on a transport without it. */
    method Ask(use: Use, risk: Risk) returns (answer: Answer<bool>, asked: Log)
      requires Valid() && !IsMeta(use.name) && risk == d.RiskOf(use.name) && risk != Read
      requires !GrantLeft(d, log, use.name)
      modifies this`log
      ensures Valid() && Calls(log) == Calls(old(log)) && log == old(log) + asked
      ensures asked == if d.requestApproval.Some? then [AskApproval(use.name, use.input, risk, answer)] else []
      ensures d.requestApproval.None? ==> answer == Resolved(false)
    {
      answer, asked := Resolved(false), [];
      if d.requestApproval.Some? {
        answer := d.requestApproval.value(log, use.name, use.input, risk);
        asked := [AskApproval(use.name, use.input, risk, answer)];
        Record(AskApproval(use.name, use.input, risk, answer));
      }
    }

    method Decline(use: Use, risk: Risk, asked: Log) returns (s: Served)
      requires !IsMeta(use.name) && risk == d.RiskOf(use.name) && risk != Read
      requires asked
            == if d.requestApproval.Some? then [AskApproval(use.name, use.input, risk, Resolved(false))] else []
      modifies this`toolEvents
      ensures s.use == use && s.effects == asked && WellServed(d, s) && toolEvents == old(toolEvents) + [s.event]
    {
      var text := if d.requestApproval.Some? then TOOL_DECLINED else TOOL_UNAVAILABLE;
      var declined := ToolEvent(use.name, use.input, text, true);
      toolEvents := toolEvents + [declined];
      return Served(use, asked, declined, ToolResult(use.id, text, true));
    }

    /** A use the gate let through, with the prompt that let it through, if any. */
    method RunConsented(use: Use, asked: Log, granted: bool) returns (s: Served, ghost run: Effect)
      requires Valid() && !IsMeta(use.name)
      requires if asked == [] then BetweenUses(log) && (d.RiskOf(use.name) == Read || granted)
               else
                 && asked == [AskApproval(use.name, use.input, d.RiskOf(use.name), Resolved(true))]
                 && log != [] && asked[0] == Last(log)
      requires granted ==> GrantLeft(d, log, use.name) && asked == []
      modifies this`log, this`toolEvents, this`approvedWriteRuns
      ensures Valid() && Calls(log) == Calls(old(log)) && BetweenUses(log)
      ensures s.use == use && s.effects == asked + [run] && log == old(log) + [run]
      ensures WellServed(d, s) && toolEvents == old(toolEvents) + [s.event]
    {
      ghost var out;
      s, out := RunTool(use, granted);
      RanServed(d, s, asked, out);
      run := s.effects[0];
      s := s.(effects := asked + s.effects);
    }

    /** A use that needs a prompt: declined, or asked and run. */
    method AskThenRun(use: Use, risk: Risk) returns (ok: bool, s: Served)
      requires Valid() && BetweenUses(log) && !IsMeta(use.name)
      requires risk == d.RiskOf(use.name) && risk != Read && !GrantLeft(d, log, use.name)
      modifies this`log, this`toolEvents, this`approvedWriteRuns
      ensures Valid() && Calls(log) == Calls(old(log))
      ensures log == old(log) + s.effects && s.use == use
      ensures ok ==> BetweenUses(log) && WellServed(d, s) && toolEvents == old(toolEvents) + [s.event]
      ensures !ok ==> Breaks(s.effects)
    {
      hide LawfulLog, ConservedBy, BudgetOf, LastText, UsageOf;
      var answer, asked := Ask(use, risk);
      if answer.Rejected? {
        return false, Served(use, asked, ToolEvent("", use.input, "", false), ToolResult("", "", false));
      }
      if !answer.value {
        s := Decline(use, risk, asked);
        return true, s;
      }
      ghost var run;
      s, run := RunConsented(use, asked, false);
      assert old(log) + asked + [run] == old(log) + (asked + [run]);
      ok := true;
    }

    /** A plan grant of the tool is left. */
    method GrantIsLeft(use: Use) returns (left: bool)
      requires Valid() && !IsMeta(use.name)
      ensures left == GrantLeft(d, log, use.name)
    {
      hide LawfulLog, BudgetOf, LastText, UsageOf;
      var planAllowance := Allowance(use.name);
      assert planAllowance + AutoRuns(d, log, use.name) == Granted(d, log, use.name);
      left := d.RiskOf(use.name) == Write && planAllowance > 0;
    }

    /** The approval gate: ask unless the tool only reads or a plan grant is left. */
    method AnswerTool(use: Use) returns (ok: bool, s: Served)
      requires Valid() && BetweenUses(log) && !IsMeta(use.name)
      modifies this`log, this`toolEvents, this`approvedWriteRuns
      ensures Valid() && Calls(log) == Calls(old(log))
      ensures log == old(log) + s.effects && s.use == use
      ensures ok ==> BetweenUses(log) && WellServed(d, s) && toolEvents == old(toolEvents) + [s.event]
      ensures d.RiskOf(use.name) == Read || GrantLeft(d, old(log), use.name) ==> ok && s.effects != []
      ensures !ok ==> Breaks(s.effects)
    {
      hide LawfulLog, BudgetOf, LastText, UsageOf, ConservedBy, GrantLeft, WellServed, Calls;
      var risk := d.RiskOf(use.name);
      var planApproved := GrantIsLeft(use);
      if risk != Read && !planApproved {
        ok, s := AskThenRun(use, risk);
      } else {
        ghost var run;
        s, run := RunConsented(use, [], planApproved);
        ok := true;
      }
    }

    method AnswerUse(use: Use, turn: nat) returns (ok: bool, s: Served)
      requires Valid() && BetweenUses(log) && turn == Calls(log)
      modifies this`log, this`toolEvents, this`approvedWriteRuns, this`budget
      ensures Valid() && Calls(log) == Calls(old(log))
      ensures log == old(log) + s.effects && s.use == use
      ensures ok ==> BetweenUses(log) && WellServed(d, s) && toolEvents == old(toolEvents) + [s.event]
      ensures !ok ==> Breaks(s.effects)
    {
      if use.name == REQUEST_INPUT {
        ok, s := AnswerInput(use);
      } else if use.name == PROPOSE_PLAN {
        ok, s := AnswerPlan(use, turn);
      } else {
        ok, s := AnswerTool(use);
      }
    }

    /** Runs every requested tool in order; `broken` is the effect of the one that rejected. */
    method AnswerAll(uses: seq<Use>, turn: nat)
      returns (ok: bool, results: seq<ToolResult>, ghost served: seq<Served>, ghost broken: Log)
      requires Valid() && BetweenUses(log) && turn == Calls(log)
      modifies this`log, this`toolEvents, this`approvedWriteRuns, this`budget
      ensures Valid() && Calls(log) == Calls(old(log))
      ensures log == old(log) + EffectsOf(served) + broken && AllServed(d, served)
      ensures UsesOf(served) <= uses
      ensures ok ==> UsesOf(served) == uses && results == ResultsOf(served) && broken == [] && BetweenUses(log)
      ensures ok ==> toolEvents == old(toolEvents) + EventsOf(served)
      ensures !ok ==> Breaks(broken)
    {
      hide LawfulLog, ConservedBy, BudgetOf, LastText, UsageOf;
      results, served := [], [];
      var i := 0;
      while i < |uses|
        invariant i == |served| <= |uses| && UsesOf(served) == uses[..i]
        invariant Valid() && BetweenUses(log) && turn == Calls(log) && AllServed(d, served)
        invariant log == old(log) + EffectsOf(served) && results == ResultsOf(served)
        invariant toolEvents == old(toolEvents) + EventsOf(served)
      {
        var s;
        ok, s := AnswerUse(uses[i], turn);
        if !ok {
          return false, results, served, s.effects;
        }
        AllServedNext(d, served, s);
        ServedNext(old(log), old(toolEvents), uses, served, s);
        served := served + [s];
        results := results + [s.result];
        i := i + 1;
      }
      return true, results, served, [];
    }

    /** createMessage with the transcript so far, its usage and its text. */
    method Call() returns (reply: Answer<Reply>)
      requires Valid() && !d.shouldAbort(log)
      modifies this`log, this`usage, this`lastText
      ensures Valid() && Calls(log) == Calls(old(log)) + 1
      ensures log == old(log) + [CallModel(messages, reply)]
    {
      reply := d.model(log, messages);
      var e := CallModel(messages, reply);
      Snoc(d, log, e);
      SnocBudget(log, e, maxTurns);
      SnocText(log, e);
      ConservedQuietly(d, log, e, approvedWriteRuns);
      log := log + [e];
      if reply.Resolved? {
        usage := Added(usage, reply.value.usage);
        if Texts(reply.value.content) != [] {
          lastText := Join(Texts(reply.value.content), "\n");
        }
      }
    }

    /** One pass of the loop after the model asked for tools: echo the reply, serve it, answer with results. */
    method Turn(reply: Reply, turn: nat, ghost history: seq<Message>, ghost rounds: seq<Round>)
      returns (ok: bool, ghost round: Round, ghost broken: Log)
      requires Valid() && BetweenUses(log) && turn == Calls(log)
      requires reply.stopReason == Some("tool_use") && Uses(reply.content) != []
      requires log == LogOf(history, rounds) + [CallModel(MessagesOf(history, rounds), Resolved(reply))]
      requires messages == MessagesOf(history, rounds) && toolEvents == AllEvents(rounds)
      modifies this`log, this`messages, this`toolEvents, this`approvedWriteRuns, this`budget
      ensures Valid() && Calls(log) == Calls(old(log))
      ensures log == old(log) + EffectsOf(round.served) + broken
      ensures ok ==> WellFormed(d, round) && broken == [] && BetweenUses(log) && log == LogOf(history, rounds + [round])
      ensures ok ==> messages == MessagesOf(history, rounds + [round]) && toolEvents == AllEvents(rounds + [round])
      ensures !ok ==> Breaks(broken)
    {
      hide LawfulLog, ConservedBy, BudgetOf, LastText, UsageOf;
      messages := messages + [Assistant(reply.content)];
      var results;
      ghost var served;
      ok, results, served, broken := AnswerAll(Uses(reply.content), turn);
      round := Round(reply, served);
      if ok {
        messages := messages + [Results(results)];
        SnocRound(history, rounds, round);
        PlusAssociates(MessagesOf(history, rounds), [Assistant(reply.content)], [Results(results)]);
        assert old(log) + EffectsOf(served) + [] == old(log) + EffectsOf(served);
      }
    }

    /** The state between two passes: the transcript, the events and the log are those of the rounds so far. */
    ghost predicate Ready(history: seq<Message>, rounds: seq<Round>)
      reads this
    {
      && Valid() && BetweenUses(log) && Calls(log) == |rounds|
      && AllWellFormed(d, rounds) && log == LogOf(history, rounds)
      && messages == MessagesOf(history, rounds) && toolEvents == AllEvents(rounds)
      && InBudget(maxTurns, log) && (maxTurns <= 0 ==> log == [])
    }

    /** One pass of the loop: the model call, and the tools it asks for. None: the loop goes on. */
    method Pass(turn: nat, ghost history: seq<Message>, ghost rounds: seq<Round>)
      returns (ending: Option<Ending>, ghost round: Round, ghost tail: Log)
      requires Ready(history, rounds) && turn == |rounds| + 1 && turn <= budget && !d.shouldAbort(log)
      modifies this
      ensures Valid() && Calls(log) == turn && log == old(log) + tail && InBudget(maxTurns, log) && tail != []
      ensures turn <= Max(maxTurns, PLAN_TURN_CAP) && maxTurns > 0
      ensures ending.None? ==> Ready(history, rounds + [round])
      ensures ending.Some? ==> ending.value.Final? || ending.value.Threw?
      ensures ending == Some(Final) ==> Answered(history, rounds, tail) && toolEvents == old(toolEvents)
      ensures ending == Some(Threw) ==> Broken(history, rounds, tail)
    {
      BudgetShape(maxTurns, log);
      var reply := Call();
      var call := CallModel(messages, reply);
      tail := [call];
      round := Round(Reply([], None, None), []);
      if reply.Rejected? {
        ending := Some(Threw);
      } else if reply.value.stopReason != Some("tool_use") || Uses(reply.value.content) == [] {
        ending := Some(Final);
      } else {
        ghost var broken;
        var ok;
        ok, round, broken := Turn(reply.value, turn, history, rounds);
        tail := tail + EffectsOf(round.served) + broken;
        if ok {
          AllWellFormedNext(d, rounds, round);
        }
        TailOfPass(old(log), call, EffectsOf(round.served), broken);
        ending := if ok then None else Some(Threw);
      }
      TurnStaysInBudget(maxTurns, old(log), tail);
    }

    method Run(ghost history: seq<Message>) returns (r: Result, ghost rounds: seq<Round>, ghost tail: Log)
      requires Valid() && messages == history && toolEvents == [] && log == []
      modifies this
      ensures Valid() && AllWellFormed(d, rounds) && log == LogOf(history, rounds) + tail
      ensures Ended(d, history, maxTurns, rounds, tail, r) && r.usage == UsageOf(log)
      ensures !r.ending.Threw? ==> r.toolEvents == AllEvents(rounds)
      ensures Calls(log) == |rounds| + if tail == [] then 0 else 1
      ensures Calls(log) <= Max(maxTurns, PLAN_TURN_CAP)
      ensures InBudget(maxTurns, log) && (maxTurns <= 0 ==> log == [])
    {
      rounds, tail := [], [];
      var turn := 1;
      while turn <= budget
        invariant Ready(history, rounds) && turn == |rounds| + 1 && turn <= Max(maxTurns, PLAN_TURN_CAP) + 1
        decreases Max(maxTurns, PLAN_TURN_CAP) - turn
      {
        if d.shouldAbort(log) {
          tail := [];
          assert log + tail == log;
          return Result(Aborted, Or(lastText, "(stopped)"), toolEvents, turn - 1, usage), rounds, tail;
        }
        var ending;
        ghost var round;
        ending, round, tail := Pass(turn, history, rounds);
        if ending.Some? {
          return Result(ending.value, lastText, toolEvents, turn, usage), rounds, tail;
        }
        rounds := rounds + [round];
        turn := turn + 1;
      }
      tail := [];
      assert log + tail == log;
      var text := Or(lastText, "(stopped after " + Signed(budget) + " tool turns without a final answer)");
      return Result(Exhausted, text, toolEvents, budget, usage), rounds, tail;
    }
  }

  /** runToolLoop. The log is what the environment saw; the rounds and the tail explain it. */
  method RunToolLoop(d: Deps, history: seq<Message>, maxTurns: int)
    returns (r: Result, log: Log, ghost rounds: seq<Round>, ghost tail: Log)
    ensures LawfulLog(d, log) && log == LogOf(history, rounds) + tail && AllWellFormed(d, rounds)
    ensures Ended(d, history, maxTurns, rounds, tail, r) && r.usage == UsageOf(log)
    ensures !r.ending.Threw? ==> r.toolEvents == AllEvents(rounds)
    ensures r.ending.Threw? ==>
      log != [] && var e := log[|log| - 1];
      || (e.CallModel? && e.reply.Rejected?) || (e.AskInput? && e.given.Rejected?)
      || (e.AskPlan? && (e.agreed.Rejected? || (e.agreed.value && Nullish in e.plan.steps)))
      || (e.AskApproval? && e.approved.Rejected?)
    ensures Calls(log) <= Max(maxTurns, PLAN_TURN_CAP) && Calls(log) == |rounds| + if tail == [] then 0 else 1
    ensures r.ending.Exhausted? ==>
      (r.turns == Calls(log) <==> 0 <= maxTurns && !(PlanAgreed(log) && Calls(log) > PLAN_TURN_CAP))
  {
    var loop := new ToolLoop(d, history, maxTurns);
    r, rounds, tail := loop.Run(history);
    log := loop.log;
    BudgetShape(maxTurns, log);
    assert tail == [] ==> log == LogOf(history, rounds);
    assert tail != [] ==> log[|log| - 1] == Last(tail);
  }

  // ---- what follows for every run ----

  /** Every entry of a lawful log was lawful when it happened. */
  lemma {:induction false} LawfulAt(d: Deps, log: Log, k: nat)
    requires LawfulLog(d, log) && k < |log|
    ensures LawfulLog(d, log[..k]) && Lawful(d, log[..k], log[k])
  {
    var n := |log| - 1;
    if k < n {
      LawfulAt(d, log[..n], k);
      assert log[..n][..k] == log[..k];
    }
  }

  /** No plan ever allows more runs than its write steps: auto-runs never exceed grants, at any point. */
  lemma {:induction false} GrantsNeverOverdrawn(d: Deps, log: Log, k: nat, tool: string)
    requires LawfulLog(d, log) && k <= |log|
    ensures AutoRuns(d, log[..k], tool) <= Granted(d, log[..k], tool)
  {
    if k > 0 {
      GrantsNeverOverdrawn(d, log, k - 1, tool);
      LawfulAt(d, log, k - 1);
      assert log[..k] == log[..k - 1] + [log[k - 1]];
      SnocGrants(d, log[..k - 1], log[k - 1], tool);
    }
  }

  lemma {:induction false} OnlyWriteIsGranted(d: Deps, log: Log, tool: string)
    requires d.riskOf.None? || d.riskOf.value(tool) != Write
    ensures Granted(d, log, tool) == 0 && AutoRuns(d, log, tool) == 0
  {
    if log != [] {
      OnlyWriteIsGranted(d, log[..|log| - 1], tool);
      if log[|log| - 1].AskPlan? {
        OnlyWriteSteps(d, Readable(log[|log| - 1].plan.steps), tool);
      }
    }
  }

  lemma {:induction false} OnlyWriteSteps(d: Deps, steps: seq<PlanStep>, tool: string)
    requires d.RiskOf(tool) != Write
    ensures Grants(d, steps, tool) == 0
  {
    if steps != [] {
      OnlyWriteSteps(d, steps[..|steps| - 1], tool);
    }
  }

  lemma {:induction false} StepNamesTool(d: Deps, steps: seq<PlanStep>, tool: string)
    requires Grants(d, Readable(steps), tool) > 0
    ensures Names(tool) in steps
  {
    ReadableIsPrefix(steps);
    CountedStep(d, Readable(steps), tool);
  }

  lemma {:induction false} ReadableIsPrefix(steps: seq<PlanStep>)
    ensures Readable(steps) <= steps
  {
    if steps != [] && !steps[0].Nullish? {
      ReadableIsPrefix(steps[1..]);
      assert steps == [steps[0]] + steps[1..];
    }
  }

  lemma {:induction false} CountedStep(d: Deps, steps: seq<PlanStep>, tool: string)
    requires Grants(d, steps, tool) > 0
    ensures Names(tool) in steps
  {
    if steps[|steps| - 1] != Names(tool) {
      CountedStep(d, steps[..|steps| - 1], tool);
    }
  }

  lemma {:induction false} GrantComesFromAPlan(d: Deps, log: Log, tool: string)
    requires Granted(d, log, tool) > 0
    ensures exists i ::
      0 <= i < |log| && log[i].AskPlan? && log[i].agreed == Resolved(true) && Names(tool) in log[i].plan.steps
  {
    var n := |log| - 1;
    if GrantedBy(d, log[n], tool) > 0 {
      StepNamesTool(d, log[n].plan.steps, tool);
    } else {
      GrantComesFromAPlan(d, log[..n], tool);
      var i :| 0 <= i < n && log[..n][i].AskPlan? && log[..n][i].agreed == Resolved(true)
               && Names(tool) in log[..n][i].plan.steps;
      assert log[..n][i] == log[i];
    }
  }

  /** Consent: a destructive tool runs only on the user's yes to that very use; a write tool on that, or on a
      grant of a plan the user approved that no earlier run has used; a meta-tool never. A tool has the risk that
      the injected riskOf gives it, and none without riskOf. */
  lemma {:induction false} EveryRunIsConsented(d: Deps, log: Log, k: nat)
    requires LawfulLog(d, log) && k < |log| && log[k].Exec?
    ensures log[k].tool != "request_input" && log[k].tool != "propose_plan"
    ensures d.riskOf.Some? && d.riskOf.value(log[k].tool) == Destructive ==> k > 0 && ConsentedBy(d, log, k)
    ensures d.riskOf.Some? && d.riskOf.value(log[k].tool) == Write ==>
      || (k > 0 && ConsentedBy(d, log, k))
      || (AutoRuns(d, log[..k], log[k].tool) < Granted(d, log[..k], log[k].tool)
          && exists i :: 0 <= i < k && log[i].AskPlan? && log[i].agreed == Resolved(true)
                         && Names(log[k].tool) in log[i].plan.steps)
  {
    LawfulAt(d, log, k);
    if k > 0 && log[k - 1].AskApproval? {
      LawfulAt(d, log, k - 1);
      assert log[..k][k - 1] == log[k - 1];
    }
    if GrantLeft(d, log[..k], log[k].tool) {
      GrantComesFromAPlan(d, log[..k], log[k].tool);
      var i :| 0 <= i < k && log[..k][i].AskPlan? && log[..k][i].agreed == Resolved(true)
               && Names(log[k].tool) in log[..k][i].plan.steps;
      assert log[..k][i] == log[i];
    }
  }

  /** The user, asked for exactly this use one step earlier, and told its risk, said yes. */
  ghost predicate ConsentedBy(d: Deps, log: Log, k: nat)
    requires 0 < k < |log| && log[k].Exec?
  {
    && d.riskOf.Some? && d.requestApproval.Some?
    && var risk := d.riskOf.value(log[k].tool);
       && log[k - 1] == AskApproval(log[k].tool, log[k].input, risk, Resolved(true))
       && d.requestApproval.value(log[..k - 1], log[k].tool, log[k].input, risk) == Resolved(true)
  }

  /** The other way round: the user is asked about a use only with the risk that riskOf gives its tool, never for a
      tool that only reads or a meta-tool, and for a write tool only when no plan grant is left. */
  lemma {:induction false} EveryPromptIsNeeded(d: Deps, log: Log, k: nat)
    requires LawfulLog(d, log) && k < |log| && log[k].AskApproval?
    ensures d.riskOf.Some? && log[k].risk == d.riskOf.value(log[k].tool) && log[k].risk != Read
    ensures log[k].tool != "request_input" && log[k].tool != "propose_plan"
    ensures log[k].risk == Write ==> Granted(d, log[..k], log[k].tool) <= AutoRuns(d, log[..k], log[k].tool)
  {
    LawfulAt(d, log, k);
  }

  // ---- one approved step, one unasked run ----

  /** Entry k runs the tool and is not preceded by a yes to that very use. */
  predicate RunsUnasked(log: Log, tool: string, k: nat)
    requires k < |log|
  {
    && log[k].Exec? && log[k].tool == tool
    && !(k > 0 && log[k - 1] == AskApproval(tool, log[k].input, Write, Resolved(true)))
  }

  /** Step s of the plan at i, which the user agreed to, names the tool. */
  predicate ApprovedStep(log: Log, tool: string, i: nat, s: nat)
    requires i < |log|
  {
    && log[i].AskPlan? && log[i].agreed == Resolved(true)
    && s < |log[i].plan.steps| && log[i].plan.steps[s] == Names(tool)
  }

  function UnaskedRuns(log: Log, tool: string): set<nat> {
    set k: nat | k < |log| && RunsUnasked(log, tool, k)
  }

  function StepsOf(log: Log, tool: string, i: nat): set<(nat, nat)>
    requires i < |log|
  {
    if log[i].AskPlan? then set s: nat | s < |log[i].plan.steps| && ApprovedStep(log, tool, i, s) :: (i, s) else {}
  }

  function ApprovedSteps(log: Log, tool: string): set<(nat, nat)> {
    set i: nat, p | i < |log| && p in StepsOf(log, tool, i) :: p
  }

  /** Bounded consent, counted: a write tool runs unasked at most as often as the plans that the user agreed to name
      it in a step of their own. */
  lemma {:induction false} EachUnaskedRunHasAStep(d: Deps, log: Log, tool: string)
    requires LawfulLog(d, log) && d.riskOf.Some? && d.riskOf.value(tool) == Write
    ensures |UnaskedRuns(log, tool)| <= |ApprovedSteps(log, tool)|
  {
    GrantsNeverOverdrawn(d, log, |log|, tool);
    assert log[..|log|] == log;
    CountUnasked(d, log, tool);
    CountApproved(d, log, tool);
  }

  lemma {:induction false} UnaskedLater(d: Deps, log: Log, tool: string)
    requires log != [] && d.riskOf.Some? && d.riskOf.value(tool) == Write
    ensures UnaskedRuns(log, tool)
         == UnaskedRuns(log[..|log| - 1], tool)
            + if IsAutoRun(d, log[..|log| - 1], log[|log| - 1], tool) then {|log| - 1} else {}
  {
    var n := |log| - 1;
    var before := log[..n];
    assert RunsUnasked(log, tool, n) <==> IsAutoRun(d, before, log[n], tool);
    hide IsAutoRun;
    forall k: nat | k < n ensures RunsUnasked(log, tool, k) <==> RunsUnasked(before, tool, k) {
      assert before[k] == log[k] && (k > 0 ==> before[k - 1] == log[k - 1]);
    }
  }

  lemma {:induction false} CountUnasked(d: Deps, log: Log, tool: string)
    requires d.riskOf.Some? && d.riskOf.value(tool) == Write
    ensures |UnaskedRuns(log, tool)| == AutoRuns(d, log, tool)
  {
    if log == [] {
      assert UnaskedRuns(log, tool) == {};
    } else {
      hide RunsUnasked, IsAutoRun;
      CountUnasked(d, log[..|log| - 1], tool);
      UnaskedLater(d, log, tool);
      assert |log| - 1 !in UnaskedRuns(log[..|log| - 1], tool);
    }
  }

  lemma {:induction false} CountApproved(d: Deps, log: Log, tool: string)
    ensures Granted(d, log, tool) <= |ApprovedSteps(log, tool)|
  {
    if log == [] {
    } else {
      var n := |log| - 1;
      var before := log[..n];
      CountApproved(d, before, tool);
      ApprovedLater(log, tool);
      CountOfPlan(d, log, tool, n);
      assert ApprovedSteps(before, tool) !! StepsOf(log, tool, n);
    }
  }

  lemma {:induction false} ApprovedLater(log: Log, tool: string)
    requires log != []
    ensures ApprovedSteps(log, tool) == ApprovedSteps(log[..|log| - 1], tool) + StepsOf(log, tool, |log| - 1)
    ensures forall p :: p in ApprovedSteps(log[..|log| - 1], tool) ==> p.0 < |log| - 1
  {
    var n := |log| - 1;
    var before := log[..n];
    forall i: nat | i < n ensures StepsOf(before, tool, i) == StepsOf(log, tool, i) {
      assert before[i] == log[i];
    }
  }

  lemma {:induction false} CountOfPlan(d: Deps, log: Log, tool: string, i: nat)
    requires i < |log|
    ensures GrantedBy(d, log[i], tool) <= |StepsOf(log, tool, i)|
  {
    if log[i].AskPlan? && log[i].agreed == Resolved(true) {
      hide Grants;
      var steps := log[i].plan.steps;
      ReadableIsPrefix(steps);
      CountNamed(d, log, tool, i, |Readable(steps)|);
      assert steps[..|Readable(steps)|] == Readable(steps);
      SubsetSize(NamedUpTo(log, tool, i, |Readable(steps)|), StepsOf(log, tool, i));
    }
  }

  function NamedUpTo(log: Log, tool: string, i: nat, n: nat): set<(nat, nat)>
    requires i < |log| && log[i].AskPlan? && n <= |log[i].plan.steps|
  {
    set s: nat | s < n && log[i].plan.steps[s] == Names(tool) :: (i, s)
  }

  lemma {:induction false} CountNamed(d: Deps, log: Log, tool: string, i: nat, n: nat)
    requires i < |log| && log[i].AskPlan? && n <= |log[i].plan.steps|
    ensures Grants(d, log[i].plan.steps[..n], tool) <= |NamedUpTo(log, tool, i, n)|
  {
    if n > 0 {
      var steps := log[i].plan.steps;
      CountNamed(d, log, tool, i, n - 1);
      assert steps[..n][..n - 1] == steps[..n - 1];
      var before := NamedUpTo(log, tool, i, n - 1);
      assert (i, n - 1) !in before;
      assert NamedUpTo(log, tool, i, n) == before + if steps[n - 1] == Names(tool) then {(i, n - 1)} else {};
    }
  }

  lemma {:induction false} ServedLengths(served: seq<Served>, i: nat)
    ensures |UsesOf(served)| == |ResultsOf(served)| == |EventsOf(served)| == |served|
    ensures i < |served| ==>
      UsesOf(served)[i] == served[i].use && ResultsOf(served)[i] == served[i].result
        && EventsOf(served)[i] == served[i].event
  {
    if served != [] {
      var n := |served| - 1;
      ServedLengths(served[..n], i);
    }
  }

  lemma {:induction false} TranscriptLength(history: seq<Message>, rounds: seq<Round>)
    ensures history <= MessagesOf(history, rounds) && |MessagesOf(history, rounds)| == |history| + 2 * |rounds|
  {
    if rounds != [] {
      TranscriptLength(history, rounds[..|rounds| - 1]);
    }
  }

  lemma {:induction false} TranscriptPrefix(history: seq<Message>, rounds: seq<Round>, k: nat)
    requires k <= |rounds|
    ensures MessagesOf(history, rounds[..k]) <= MessagesOf(history, rounds)
  {
    var n := |rounds| - 1;
    if k <= n {
      TranscriptPrefix(history, rounds[..n], k);
      assert rounds[..n][..k] == rounds[..k];
    } else {
      assert rounds[..k] == rounds;
    }
  }

  lemma {:induction false} ResultAt(d: Deps, r: Round, i: nat)
    requires WellFormed(d, r) && i < |Uses(r.reply.content)|
    ensures |ResultsOf(r.served)| == |Uses(r.reply.content)|
    ensures ResultsOf(r.served)[i].id == Uses(r.reply.content)[i].id
  {
    ServedLengths(r.served, i);
    assert WellServed(d, r.served[i]);
  }

  /** The transcript keeps its history as a prefix, and pairs each echoed reply with the results of its tool
      uses: the same ids, in the same order, one each. */
  lemma {:induction false} TranscriptPairs(d: Deps, history: seq<Message>, rounds: seq<Round>, k: nat, i: nat)
    requires k < |rounds| && WellFormed(d, rounds[k]) && i < |Uses(rounds[k].reply.content)|
    ensures history <= MessagesOf(history, rounds) && |MessagesOf(history, rounds)| == |history| + 2 * |rounds|
    ensures MessagesOf(history, rounds)[|history| + 2 * k] == Assistant(rounds[k].reply.content)
    ensures var answer := MessagesOf(history, rounds)[|history| + 2 * k + 1];
      && answer.Results? && |answer.results| == |Uses(rounds[k].reply.content)|
      && answer.results[i].id == Uses(rounds[k].reply.content)[i].id
  {
    TranscriptLength(history, rounds);
    TranscriptLength(history, rounds[..k]);
    TranscriptPrefix(history, rounds, k + 1);
    ResultAt(d, rounds[k], i);
    assert rounds[..k + 1][..k] == rounds[..k];
    hide WellFormed, ResultsOf, Uses;
  }

  lemma {:induction false} EventAt(d: Deps, r: Round, i: nat)
    requires WellFormed(d, r) && i < |Uses(r.reply.content)|
    ensures |EventsOf(r.served)| == |Uses(r.reply.content)|
    ensures EventsOf(r.served)[i].tool == Uses(r.reply.content)[i].name
    ensures EventsOf(r.served)[i].input == Uses(r.reply.content)[i].input
  {
    ServedLengths(r.served, i);
    assert WellServed(d, r.served[i]);
  }

  lemma {:induction false} EventsPrefix(rounds: seq<Round>, k: nat)
    requires k <= |rounds|
    ensures AllEvents(rounds[..k]) <= AllEvents(rounds)
  {
    var n := |rounds| - 1;
    if k <= n {
      EventsPrefix(rounds[..n], k);
      assert rounds[..n][..k] == rounds[..k];
    } else {
      assert rounds[..k] == rounds;
    }
  }

  /** toolEvents is the flattening, in order, of every tool use of every round, whichever branch answered it. */
  lemma {:induction false} EventsFlatten(d: Deps, rounds: seq<Round>, k: nat, i: nat)
    requires k < |rounds| && WellFormed(d, rounds[k]) && i < |Uses(rounds[k].reply.content)|
    ensures |AllEvents(rounds[..k])| + i < |AllEvents(rounds)|
    ensures |AllEvents(rounds[..k + 1])| == |AllEvents(rounds[..k])| + |Uses(rounds[k].reply.content)|
    ensures var e := AllEvents(rounds)[|AllEvents(rounds[..k])| + i];
      e.tool == Uses(rounds[k].reply.content)[i].name && e.input == Uses(rounds[k].reply.content)[i].input
  {
    hide AllEvents, EventsOf, Uses, WellFormed;
    EventsNext(rounds, k);
    EventsPrefix(rounds, k + 1);
    EventAt(d, rounds[k], i);
  }

  lemma {:induction false} EventsNext(rounds: seq<Round>, k: nat)
    requires k < |rounds|
    ensures AllEvents(rounds[..k + 1]) == AllEvents(rounds[..k]) + EventsOf(rounds[k].served)
  {
    hide EventsOf;
    assert rounds[..k + 1][..k] == rounds[..k];
  }

  /** What the model reads back from a tool that ran is one fenced block, whatever the tool printed or threw,
      unless the tool's own output said it is trusted: its only fence tokens, in any letter case, are the
      opening one at the front and the closing one at the end. */
  lemma {:induction false} RanToolIsFenced(d: Deps, s: Served, i: int, token: string)
    requires WellServed(d, s) && !IsMeta(s.use.name) && s.effects != [] && Last(s.effects).Exec?
    requires token == "<untrusted-tool-output>" || token == "</untrusted-tool-output>"
    requires 0 <= i && i + |token| <= |s.result.content|
    ensures var out, r := Last(s.effects).out, s.result.content;
      !(out.Resolved? && out.value.trusted) ==>
        ((forall k :: 0 <= k < |token| ==>
            r[i + k] == token[k] || ('A' <= r[i + k] <= 'Z' && r[i + k] as int + 32 == token[k] as int))
         <==> i == if token == "<untrusted-tool-output>" then 0 else |r| - |token|)
  {
    hide Fence.FenceToolResult;
    var out := Last(s.effects).out;
    if !(out.Resolved? && out.value.trusted) {
      Fence.FenceHolds(s.event.result, Fence.MAX_TOOL_RESULT_CHARS, i, token);
    }
  }

  // ---- what the result is made of ----

  /** The texts and the uses of a reply are those of its blocks, in their order. */
  lemma {:induction false} BlocksAre(content: seq<Block>, b: Block)
    ensures Texts([]) == [] && Texts(content + [b]) == Texts(content) + if b.TextBlock? then [b.text] else []
    ensures Uses([]) == [] && Uses(content + [b]) == Uses(content) + if b.UseBlock? then [b.use] else []
  {
    var all := content + [b];
    if content == [] {
      assert all == [b] && all[1..] == [];
    } else {
      BlocksAre(content[1..], b);
      assert all[0] == content[0] && all[1..] == content[1..] + [b];
      PlusAssociates(if content[0].TextBlock? then [content[0].text] else [], Texts(content[1..]),
                     if b.TextBlock? then [b.text] else []);
      PlusAssociates(if content[0].UseBlock? then [content[0].use] else [], Uses(content[1..]),
                     if b.UseBlock? then [b.use] else []);
    }
  }

  predicate HasNoText(e: Effect) {
    e.CallModel? && e.reply.Resolved? ==> forall b :: b in e.reply.value.content ==> !b.TextBlock?
  }

  lemma {:induction false} NoTexts(content: seq<Block>)
    ensures Texts(content) == [] <==> forall b :: b in content ==> !b.TextBlock?
  {
    if content != [] {
      NoTexts(content[1..]);
      assert content[0] in content && forall b :: b in content <==> b == content[0] || b in content[1..];
    }
  }

  /** The text of a result is the text of the last reply that has any, its blocks joined by newlines; "" without one. */
  lemma {:induction false} LastTextIs(before: Log, sent: seq<Message>, reply: Reply, later: Log)
    requires forall e :: e in later ==> HasNoText(e)
    ensures (exists b :: b in reply.content && b.TextBlock?) ==>
      LastText(before + [CallModel(sent, Resolved(reply))] + later) == Join(Texts(reply.content), "\n")
    ensures LastText(later) == ""
  {
    hide HasNoText, TextAfter;
    var e := CallModel(sent, Resolved(reply));
    var all := before + [e] + later;
    if later == [] {
      assert all == before + [e];
      SnocText(before, e);
      TextsDecide(LastText(before), reply);
    } else {
      var n := |later| - 1;
      LastTextIs(before, sent, reply, later[..n]);
      PlusAssociates(before + [e], later[..n], [later[n]]);
      assert later == later[..n] + [later[n]] && later[n] in later;
      SnocText(before + [e] + later[..n], later[n]);
      SnocText(later[..n], later[n]);
      QuietKeeps(LastText(before + [e] + later[..n]), later[n]);
      QuietKeeps(LastText(later[..n]), later[n]);
    }
  }

  lemma {:induction false} TextsDecide(last: string, reply: Reply)
    ensures (exists b :: b in reply.content && b.TextBlock?) ==>
      TextAfter(last, reply) == Join(Texts(reply.content), "\n")
    ensures (forall b :: b in reply.content ==> !b.TextBlock?) ==> TextAfter(last, reply) == last
  {
    NoTexts(reply.content);
  }

  lemma {:induction false} QuietKeeps(last: string, e: Effect)
    requires HasNoText(e)
    ensures e.CallModel? && e.reply.Resolved? ==> TextAfter(last, e.reply.value) == last
  {
    if e.CallModel? && e.reply.Resolved? {
      TextsDecide(last, e.reply.value);
    }
  }

  /** The usage of a result is the sum over the calls that were answered with one; a missing cache count is 0. */
  lemma {:induction false} UsageAddsUp(log: Log, later: Log)
    ensures var a, b, sum := UsageOf(log), UsageOf(later), UsageOf(log + later);
      && sum.input == a.input + b.input && sum.output == a.output + b.output
      && sum.cacheRead == a.cacheRead + b.cacheRead && sum.cacheWrite == a.cacheWrite + b.cacheWrite
  {
    if later == [] {
      assert log + later == log;
    } else {
      var n := |later| - 1;
      UsageAddsUp(log, later[..n]);
      assert log + later == (log + later[..n]) + [later[n]] && later == later[..n] + [later[n]];
      SnocText(log + later[..n], later[n]);
      SnocText(later[..n], later[n]);
    }
  }

  lemma {:induction false} UsageOfOne(e: Effect)
    ensures var u, t := UsageOf([e]), if e.CallModel? && e.reply.Resolved? then e.reply.value.usage else None;
      if t.None? then u == Usage(0, 0, 0, 0)
      else
        && u.input == t.value.input && u.output == t.value.output
        && u.cacheRead == (if t.value.cacheRead.Some? then t.value.cacheRead.value else 0)
        && u.cacheWrite == (if t.value.cacheWrite.Some? then t.value.cacheWrite.value else 0)
  {
    assert [e][..0] == [];
  }
}
