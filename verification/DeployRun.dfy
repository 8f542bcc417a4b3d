/** executeDeploy, composeUp and removeAppContainers of deploy/executor.ts, as statements over a trace of
    effects. Every awaited answer (exit codes, output, probes, database writes) is an arbitrary function of the
    trace so far. Output lines are given already trimmed. */
module DeployRun {
  import opened Text
  import opened ContainerNames
  import opened DeployProtocol

  // ---- what a run is given ----

  datatype Preview = Preview(prNumber: nat, branch: string)

  datatype Opts = Opts(image: string, preview: Option<Preview>)

  datatype Strategy = Compose | Dockerfile | Nixpacks | Buildpacks | Static

  /** The app's row; "" stands for a missing string. */
  datatype App = App(id: string, image: string, hasRepo: bool, branch: string, strategy: Strategy, hasCredential: bool,
                     preDeploy: string, postDeploy: string, service: string, containerPort: nat)

  datatype Command =
    | Login | Logout | Pull(image: string)
    | Clone(branch: string) | RevParse | Build(tag: string, strategy: Strategy) | TagLatest(tag: string)
    | PreHook(tag: string, hook: string) | PostHook(container: string, hook: string)
    | RemoveContainer(key: string) | RunContainer(name: string, appId: string, tag: string)
    | Port(container: string) | ListLabelled(appId: string) | InspectId(container: string)
    | ListImages(image: string) | RemoveImage(tag: string)
    | ComposeUp(project: string) | ComposePort(project: string, service: string) | ComposePs(project: string)

  datatype Exit = Exit(code: int, aborted: bool, stdout: seq<string>)

  datatype Answer = Exited(exit: Exit) | Broke

  /** Other awaited calls that may reject. */
  datatype Call = LookupApp | ResolveTarget | OpenCredential | PrepareWorkdir | CloneUrl | ComposeFile | WriteFile
                | ResolveEnv | Converge | StampPreview | PreviewDomain

  datatype Effect =
    | Step(op: Op)
    | Refused(op: Op)
    | Ran(cmd: Command, answer: Answer)
    | Probed(host: string, port: nat, ok: bool)
    | Called(what: Call, ok: bool)

  type Trace = seq<Effect>

  datatype Env = Env(
    exec: (Trace, Command) -> Answer,
    write: (Trace, Op) -> bool,
    probe: (Trace, string, nat) -> bool,
    call: (Trace, Call) -> bool,
    claim: Trace -> bool,
    cancelRequested: Trace -> bool,
    rowExists: bool, appExists: bool, credentialFound: bool, remote: bool,
    hasComposeFile: bool, hasDockerfile: bool, hasPublishDir: bool,
    host: string,
    prune: seq<string> -> seq<string>,
    healthAttempts: nat)

  datatype Job = Job(env: Env, deploymentId: string, app: App, opts: Opts)

  // ---- names ----

  function NewContainer(job: Job): string {
    match job.opts.preview
    case Some(p) => PreviewContainer(job.app.id, p.prNumber)
    case None => DeployContainer(job.app.id, job.deploymentId)
  }

  /** The name of the new container, as the source spells it. */
  lemma {:induction false} NewContainerName(job: Job)
    ensures job.opts.preview.Some? ==> IsPreviewName(NewContainer(job), job.app.id, job.opts.preview.value.prNumber)
    ensures job.opts.preview.None? ==> IsDeployName(NewContainer(job), job.app.id, job.deploymentId)
    ensures '-' in NewContainer(job)
  {
    hide PreviewContainer, DeployContainer, IsPreviewName, IsDeployName;
    var pr := if job.opts.preview.Some? then job.opts.preview.value.prNumber else 0;
    PreviewContainerIs(job.app.id, pr);
    DeployContainerIs(job.app.id, job.deploymentId);
    NamesHaveADash(NewContainer(job), job.app.id, pr, job.deploymentId);
  }

  /** The host port of the new container, as `docker port` names it. */
  function HostPort(exit: Exit): string {
    AfterColon(FirstLine(exit.stdout))
  }

  /** The routed port of a compose project; "" when there is none. */
  function RoutedPort(exit: Exit): string {
    ParsePortMapping(FirstLine(exit.stdout))
  }

  const LOOPBACK := "127.0.0.1"

  /** Where the target's containers can be reached. */
  function Host(job: Job): string {
    if job.env.remote then job.env.host else LOOPBACK
  }

  // ---- what a trace says ----

  function LocalOf(trace: Trace): Local {
    if trace == [] then Local(Looking, {}, 0)
    else
      var before, e := LocalOf(trace[..|trace| - 1]), trace[|trace| - 1];
      if e.Step? then LocalNext(before, e.op).GetOr(before) else before
  }

  /** Things a trace can show to have happened. */
  datatype Mark = SuccessWritten | Stamped

  predicate Marks(e: Effect, m: Mark) {
    match m
    case SuccessWritten => e == Step(Succeed)
    case Stamped => e == Called(StampPreview, true)
  }

  ghost predicate Has(trace: Trace, m: Mark) {
    exists i :: 0 <= i < |trace| && Marks(trace[i], m)
  }

  predicate IsExitZero(e: Effect) {
    e.Ran? && e.answer.Exited? && e.answer.exit.code == 0
  }

  /** How far a deploy has come, by the commands that worked and the probes that were answered. Doomed: something
      happened that the run must throw for, as a CancelledError if a child was aborted. Mapped and ComposeRouted
      count the probes without an answer. */
  datatype Stage = Unsourced | Fetched | Sourced(tag: string) | Migrated(tag: string)
                 | Up | Mapped(port: nat, tries: nat) | Healthy | Hooked
                 | ComposeIsUp | ComposeRouted(port: nat, tries: nat) | ComposeHealthy
                 | Doomed(aborted: bool)

  /** The exits the executor throws for. */
  predicate BadExit(cmd: Command, exit: Exit) {
    match cmd
    case Login => exit.code != 0
    case Pull(_) => exit.code != 0
    case Clone(_) => exit.code != 0 || exit.aborted
    case Build(_, _) => exit.code != 0 || exit.aborted
    case PreHook(_, _) => exit.code != 0
    case RunContainer(_, _, _) => exit.code != 0
    case PostHook(_, _) => exit.code != 0
    case ComposeUp(_) => exit.code != 0
    case _ => false
  }

  /** The commands whose rejection is swallowed: the logout, image pruning, and the sweep after a compose deploy. */
  predicate Tolerated(stage: Stage, cmd: Command) {
    match cmd
    case Logout => true
    case ListImages(_) => true
    case RemoveImage(_) => true
    case ListLabelled(_) => IsCompose(stage)
    case RemoveContainer(_) => IsCompose(stage)
    case _ => false
  }

  /** The health check has nothing, or no attempt left, to probe. */
  predicate Unreachable(job: Job, stage: Stage, e: Effect) {
    match stage
    case Up => IsExit(e, Port(NewContainer(job)))
               && (PortNumber(HostPort(e.answer.exit)) == 0 || job.env.healthAttempts == 0)
    case ComposeIsUp => NamesPort(e) && RoutedPort(e.answer.exit) != "" && job.env.healthAttempts == 0
    case Mapped(_, tries) => e.Probed? && !e.ok && tries + 1 >= job.env.healthAttempts
    case ComposeRouted(_, tries) => e.Probed? && !e.ok && tries + 1 >= job.env.healthAttempts
    case _ => false
  }

  predicate NamesPort(e: Effect) {
    e.Ran? && (e.cmd.Port? || e.cmd.ComposePort?) && e.answer.Exited?
  }

  /** What the try body throws for, at once or after cleaning up. */
  predicate Fatal(job: Job, stage: Stage, e: Effect) {
    match e
    case Step(_) => false
    case Refused(op) => op.Start? || op.Finish? || op.Succeed?
    case Ran(cmd, Broke) => !Tolerated(stage, cmd)
    case Ran(cmd, Exited(exit)) => BadExit(cmd, exit) || Unreachable(job, stage, e)
    case Probed(_, _, _) => Unreachable(job, stage, e)
    case Called(what, ok) => !ok && !what.LookupApp? && !what.ResolveTarget? && !what.Converge?
  }

  function StageNext(job: Job, stage: Stage, e: Effect): Stage {
    if stage.Doomed? then stage
    else if Fatal(job, stage, e) then Doomed(IsAbort(e))
    else
      match e
      case Ran(cmd, Exited(exit)) => StageAfter(stage, cmd, exit)
      case Probed(_, _, ok) => StageProbed(stage, ok)
      case _ => stage
  }

  /** A command that worked. */
  function StageAfter(stage: Stage, cmd: Command, exit: Exit): Stage {
    match cmd
    case Pull(image) => Sourced(image)
    case Clone(_) => Fetched
    case Build(tag, _) => Sourced(tag)
    case PreHook(tag, _) => Migrated(tag)
    case RunContainer(_, _, _) => Up
    case Port(_) => if stage.Up? then Mapped(PortNumber(HostPort(exit)), 0) else StageRouted(stage, exit)
    case ComposePort(_, _) => StageRouted(stage, exit)
    case PostHook(_, _) => Hooked
    case ComposeUp(_) => ComposeIsUp
    case _ => stage
  }

  function StageRouted(stage: Stage, exit: Exit): Stage {
    if stage.ComposeIsUp? && RoutedPort(exit) != "" then ComposeRouted(PortNumber(RoutedPort(exit)), 0) else stage
  }

  function StageProbed(stage: Stage, ok: bool): Stage {
    match stage
    case Mapped(port, tries) => if ok then Healthy else Mapped(port, tries + 1)
    case ComposeRouted(port, tries) => if ok then ComposeHealthy else ComposeRouted(port, tries + 1)
    case _ => stage
  }

  function StageOf(job: Job, trace: Trace): Stage {
    if trace == [] then Unsourced else StageNext(job, StageOf(job, trace[..|trace| - 1]), trace[|trace| - 1])
  }

  /** The image there is to run: the one asked for, or the one pulled or built. */
  function ReadyTag(job: Job, stage: Stage): Option<string> {
    if job.opts.image != "" then (if stage.Unsourced? then Some(job.opts.image) else None)
    else if stage.Sourced? then Some(stage.tag)
    else None
  }

  /** The image the new container may be started from: its pre-deploy hook, if any, has passed on that image. */
  function StartTag(job: Job, stage: Stage): Option<string> {
    if job.app.preDeploy == "" then ReadyTag(job, stage)
    else if stage.Migrated? then Some(stage.tag)
    else None
  }

  predicate MayProbe(job: Job, stage: Stage, host: string, port: nat) {
    match stage
    case Mapped(p, _) => host == Host(job) && port == p
    case ComposeRouted(p, _) => host == LOOPBACK && port == p
    case _ => false
  }

  predicate IsCompose(stage: Stage) {
    stage.ComposeIsUp? || stage.ComposeRouted? || stage.ComposeHealthy?
  }

  /** What a deploy needs before it is written as succeeded: a new container that answered a probe and passed
      its post-deploy hook, or a compose project that is up and answers if it has a routed port. */
  predicate MaySucceed(job: Job, stage: Stage) {
    if job.app.postDeploy == "" then stage.Healthy? || stage.ComposeIsUp? || stage.ComposeHealthy?
    else stage.Hooked? || stage.ComposeIsUp? || stage.ComposeHealthy?
  }

  /** The builder the app's settings and the checkout call for; None when the deploy must throw. */
  function ChosenStrategy(job: Job): (chosen: Option<Strategy>)
    ensures chosen != Some(Compose)
    ensures chosen == Some(Dockerfile) ==> job.env.remote || job.env.hasDockerfile
    ensures chosen == Some(Static) ==> !job.env.remote && job.env.hasPublishDir
    ensures chosen.Some? && job.env.remote ==> chosen == Some(Dockerfile)
    ensures chosen.Some? && !job.app.strategy.Compose? ==> chosen == Some(job.app.strategy)
    ensures job.app.strategy.Compose? ==> chosen.Some?
  {
    var s := job.app.strategy;
    if job.env.remote then
      if s.Compose? || s.Dockerfile? then Some(Dockerfile) else None
    else if s.Compose? then Some(if job.env.hasDockerfile then Dockerfile else Nixpacks)
    else if (s.Dockerfile? && !job.env.hasDockerfile) || (s.Static? && !job.env.hasPublishDir) then None
    else Some(s)
  }

  /** Logged in to a registry and not yet out. */
  function LoginNext(login: bool, e: Effect): bool {
    if IsExitZero(e) && e.cmd.Login? then true
    else if e.Ran? && e.cmd.Logout? then false
    else login
  }

  function LoginOf(trace: Trace): bool {
    trace != [] && LoginNext(LoginOf(trace[..|trace| - 1]), trace[|trace| - 1])
  }

  predicate Lists(e: Effect, appId: string, key: string) {
    e.Ran? && e.cmd == ListLabelled(appId) && e.answer.Exited? && key in Ids(e.answer.exit.stdout)
  }

  ghost predicate Listed(trace: Trace, appId: string, key: string) {
    exists i :: 0 <= i < |trace| && Lists(trace[i], appId, key)
  }

  /** The id the latest inspect named, or "". */
  function KeptId(trace: Trace): string {
    if trace == [] then ""
    else
      var e := trace[|trace| - 1];
      if e.Ran? && e.cmd.InspectId? && e.answer.Exited? then FirstLine(e.answer.exit.stdout)
      else KeptId(trace[..|trace| - 1])
  }

  /** A container docker listed for the app; of a single-container deploy, not the one inspect named as new. */
  ghost predicate Sweepable(job: Job, before: Trace, key: string) {
    && job.opts.preview.None?
    && Listed(before, job.app.id, key)
    && (key == KeptId(before) ==> IsCompose(StageOf(job, before)))
  }

  /** The listed ids that are not the kept one. */
  function ToRemove(ids: seq<string>, keepId: string): seq<string> {
    if ids == [] then []
    else
      var n := |ids| - 1;
      if ids[n] == keepId then ToRemove(ids[..n], keepId) else ToRemove(ids[..n], keepId) + [ids[n]]
  }

  predicate IsExit(e: Effect, cmd: Command) {
    e.Ran? && e.cmd == cmd && e.answer.Exited?
  }

  /** Removal of each of the keys, in order. */
  ghost predicate Removes(trace: Trace, keys: seq<string>) {
    |trace| == |keys| && forall i :: 0 <= i < |keys| ==> IsExit(trace[i], RemoveContainer(keys[i]))
  }

  /** A whole sweep: the list, the id to keep, and one removal for each other id. */
  ghost predicate IsSweep(appId: string, keep: string, sweep: Trace) {
    && sweep != [] && IsExit(sweep[0], ListLabelled(appId))
    && var ids := Ids(sweep[0].answer.exit.stdout);
       if keep == "" then Removes(sweep[1..], ToRemove(ids, ""))
       else
         && |sweep| > 1 && IsExit(sweep[1], InspectId(keep))
         && Removes(sweep[2..], ToRemove(ids, FirstLine(sweep[1].answer.exit.stdout)))
  }

  /** The commands that change containers. */
  predicate Touches(e: Effect) {
    e.Ran? && (e.cmd.RemoveContainer? || e.cmd.RunContainer? || e.cmd.ComposeUp?)
  }

  /** From i on, up to j, no container is touched. */
  ghost predicate Calm(trace: Trace, i: int, j: int) {
    forall k :: i <= k < j && 0 <= k < |trace| ==> !Touches(trace[k])
  }

  /** Since the success written at s the run touched no container but in the sweep from x up to y, which keeps the
      new one. */
  ghost predicate SweptBetween(job: Job, trace: Trace, s: int, x: int, y: int) {
    && 0 <= s < x <= y <= |trace| && trace[s] == Step(Succeed)
    && IsSweep(job.app.id, NewContainer(job), trace[x..y]) && Calm(trace, s + 1, x) && Calm(trace, y, |trace|)
  }

  ghost predicate SweptOnce(job: Job, trace: Trace) {
    exists s, x, y :: SweptBetween(job, trace, s, x, y)
  }

  predicate FromImage(job: Job) {
    job.opts.image == "" && job.app.image != ""
  }

  predicate FromRepo(job: Job) {
    job.opts.image == "" && job.app.image == "" && job.app.hasRepo
  }

  /** A compose-strategy checkout with a compose file, deployed as a project. */
  predicate TakesCompose(job: Job) {
    FromRepo(job) && job.app.strategy.Compose? && job.opts.preview.None? && job.env.hasComposeFile
  }

  /** Which command may run after a trace, and what it may touch. */
  ghost predicate MayRun(job: Job, before: Trace, cmd: Command) {
    var stage, done := StageOf(job, before), Has(before, SuccessWritten);
    match cmd
    case Login => FromImage(job) && job.app.hasCredential && stage.Unsourced? && !done
    case Pull(image) => FromImage(job) && image == job.app.image && stage.Unsourced? && !done
    case Clone(branch) =>
      && FromRepo(job) && stage.Unsourced? && !done
      && branch == if job.opts.preview.Some? then job.opts.preview.value.branch else job.app.branch
    case Build(tag, strategy) =>
      FromRepo(job) && stage.Fetched? && !TakesCompose(job) && ChosenStrategy(job) == Some(strategy) && !done
    case PreHook(tag, hook) => ReadyTag(job, stage) == Some(tag) && hook == job.app.preDeploy && !done
    case RemoveContainer(key) =>
      if done then Sweepable(job, before, key)
      else key == NewContainer(job) && (StartTag(job, stage).Some? || stage.Doomed?)
    case RunContainer(name, appId, tag) =>
      name == NewContainer(job) && appId == job.app.id && StartTag(job, stage) == Some(tag) && !done
    case Port(container) => (stage.Up? && container == NewContainer(job)) || stage.ComposeIsUp?
    case PostHook(container, hook) =>
      container == NewContainer(job) && hook == job.app.postDeploy && stage.Healthy? && !done
    case ComposeUp(project) =>
      TakesCompose(job) && !job.env.remote && stage.Fetched? && project == ContainerName(job.app.id) && !done
    case _ => true
  }

  /** A child that CancelledError is thrown for: it was killed by the run's signal. */
  predicate IsAbort(e: Effect) {
    e.Ran? && (e.cmd.Clone? || e.cmd.Build?) && e.answer.Exited? && e.answer.exit.aborted
  }

  /** A step is failed only on the way to a throw: right after the pre-deploy hook failed, right after the bad new
      container was discarded, or for a compose project that does not answer. */
  predicate CausesFailure(job: Job, before: Trace)
    requires before != []
  {
    var e := before[|before| - 1];
    StageOf(job, before).Doomed?
    && (TakesCompose(job) || (e.Ran? && e.cmd.PreHook?) || IsExit(e, RemoveContainer(NewContainer(job))))
  }

  /** Settings the executor does not serve. */
  predicate Unservable(job: Job) {
    || (FromRepo(job) && ChosenStrategy(job).None?)
    || (TakesCompose(job) && job.env.remote)
    || (job.opts.image == "" && job.app.image == "" && !job.app.hasRepo)
  }

  /** The branch a step of the run takes is the one the answers so far call for. */
  ghost predicate RightStep(job: Job, before: Trace, op: Op) {
    match op
    case NotFound => !job.env.rowExists
    case MissingApp => job.env.rowExists && !job.env.appExists
    case Claim(won) => job.env.rowExists && job.env.appExists && won == job.env.claim(before)
    case WriteRejects =>
      before != [] && (before[|before| - 1].Refused? || before[|before| - 1] == Called(LookupApp, false))
    case TargetThrows => before != [] && before[|before| - 1] == Called(ResolveTarget, false)
    case Enter => before != [] && before[|before| - 1] == Called(ResolveTarget, true)
    case Finish(_, ok) => !ok ==> before != [] && CausesFailure(job, before)
    case Succeed => MaySucceed(job, StageOf(job, before)) && !LoginOf(before)
    case Return =>
      && !StageOf(job, before).Doomed?
      && if IsCompose(StageOf(job, before)) then true
         else if job.opts.preview.Some? then Has(before, Stamped)
         else SweptOnce(job, before)
    case Throw(cancelled) =>
      && !LoginOf(before) && (StageOf(job, before).Doomed? || Unservable(job))
      && cancelled == (job.env.cancelRequested(before) || StageOf(job, before) == Doomed(true))
    case _ => true
  }

  predicate InTry(pc: Pc) {
    pc.Working? || pc.Swapping?
  }

  ghost predicate Allowed(job: Job, before: Trace, e: Effect) {
    var l := LocalOf(before);
    match e
    case Step(op) => LocalNext(l, op).Some? && RightStep(job, before, op)
    case Refused(op) => LocalNext(l, op).Some? && !job.env.write(before, op)
    case Ran(cmd, answer) => InTry(l.pc) && answer == job.env.exec(before, cmd) && MayRun(job, before, cmd)
    case Probed(host, port, ok) =>
      InTry(l.pc) && ok == job.env.probe(before, host, port) && MayProbe(job, StageOf(job, before), host, port)
    case Called(what, ok) => MayCall(l.pc, what) && ok == job.env.call(before, what)
  }

  predicate MayCall(pc: Pc, what: Call) {
    match what
    case LookupApp => pc.Looking?
    case ResolveTarget => pc.Resolving?
    case _ => InTry(pc)
  }

  ghost predicate RightAt(job: Job, trace: Trace, k: int) {
    0 <= k < |trace| ==> Allowed(job, trace[..k], trace[k])
  }

  /** Every effect is allowed after those before it. */
  ghost predicate AllowedTrace(job: Job, trace: Trace) {
    forall k :: RightAt(job, trace, k)
  }

  lemma {:induction false} AllowedSnoc(job: Job, trace: Trace, e: Effect)
    ensures AllowedTrace(job, trace + [e]) <==> AllowedTrace(job, trace) && Allowed(job, trace, e)
  {
    hide Allowed;
    var longer, n := trace + [e], |trace|;
    assert longer[..n] == trace && (RightAt(job, longer, n) <==> Allowed(job, trace, e));
    forall k | k != n ensures RightAt(job, longer, k) <==> RightAt(job, trace, k) {
      if 0 <= k < n {
        assert longer[..k] == trace[..k];
      }
    }
    if AllowedTrace(job, longer) {
      forall k ensures RightAt(job, trace, k) {
        assert RightAt(job, longer, k);
      }
    }
  }

  lemma {:induction false} Snoc(job: Job, trace: Trace, e: Effect)
    ensures AllowedTrace(job, trace + [e]) <==> AllowedTrace(job, trace) && Allowed(job, trace, e)
    ensures LocalOf(trace + [e])
         == if e.Step? then LocalNext(LocalOf(trace), e.op).GetOr(LocalOf(trace)) else LocalOf(trace)
    ensures StageOf(job, trace + [e]) == StageNext(job, StageOf(job, trace), e)
    ensures LoginOf(trace + [e]) == LoginNext(LoginOf(trace), e)
  {
    hide AllowedTrace, LocalNext, StageNext, LoginNext;
    AllowedSnoc(job, trace, e);
    assert (trace + [e])[..|trace|] == trace;
  }

  /** At work or earlier. */
  predicate Early(pc: Pc) {
    pc.Looking? || pc.Dropping? || pc.Claimed? || pc.Resolving? || pc.Working?
  }

  /** A run swaps containers exactly after it has written its success. */
  ghost predicate Placed(trace: Trace, pc: Pc) {
    (Early(pc) ==> !Has(trace, SuccessWritten)) && (pc.Swapping? ==> Has(trace, SuccessWritten))
  }

  lemma {:induction false} PlacedNext(trace: Trace, l: Local, e: Effect)
    requires Placed(trace, l.pc) && (e.Step? ==> LocalNext(l, e.op).Some?)
    ensures Placed(trace + [e], if e.Step? then LocalNext(l, e.op).value.pc else l.pc)
  {
    var next := trace + [e];
    assert next[|trace|] == e;
    if Has(trace, SuccessWritten) {
      HasStays(trace, next, SuccessWritten);
    }
    if Has(next, SuccessWritten) && !Marks(e, SuccessWritten) {
      var i :| 0 <= i < |next| && Marks(next[i], SuccessWritten);
      assert Marks(trace[i], SuccessWritten);
    }
  }

  /** Open steps have been started. */
  ghost predicate Numbered(l: Local) {
    forall k :: k in l.open ==> k < l.next
  }

  lemma {:induction false} OpenNext(l: Local, op: Op)
    requires Numbered(l) && LocalNext(l, op).Some?
    ensures Numbered(LocalNext(l, op).value)
  {
  }

  lemma {:induction false} HasStays(trace: Trace, longer: Trace, m: Mark)
    requires trace <= longer && Has(trace, m)
    ensures Has(longer, m)
  {
    var i :| 0 <= i < |trace| && Marks(trace[i], m);
    assert Marks(longer[i], m);
  }

  lemma {:induction false} HasEarlier(trace: Trace, n: nat, m: Mark)
    requires n <= |trace|
    ensures Has(trace[..n], m) ==> Has(trace, m)
  {
    if Has(trace[..n], m) {
      HasStays(trace[..n], trace, m);
    }
  }

  lemma {:induction false} ListedStays(trace: Trace, longer: Trace, appId: string, key: string)
    requires trace <= longer && Listed(trace, appId, key)
    ensures Listed(longer, appId, key)
  {
    var i :| 0 <= i < |trace| && Lists(trace[i], appId, key);
    assert Lists(longer[i], appId, key);
  }

  lemma {:induction false} KeptNext(trace: Trace, e: Effect)
    ensures KeptId(trace + [e])
         == if e.Ran? && e.cmd.InspectId? && e.answer.Exited? then FirstLine(e.answer.exit.stdout) else KeptId(trace)
  {
    assert (trace + [e])[..|trace|] == trace;
  }

  lemma {:induction false} StartedSomething(job: Job, trace: Trace)
    ensures !StageOf(job, trace).Unsourced? ==> trace != []
  {
  }

  lemma {:induction false} NewContainerIsNamed(job: Job)
    ensures NewContainer(job) != ""
  {
    assert |ContainerName(job.app.id)| >= 3;
  }

  lemma {:induction false} AllListed(trace: Trace, at: nat, appId: string)
    requires at < |trace| && IsExit(trace[at], ListLabelled(appId))
    ensures forall id :: id in Ids(trace[at].answer.exit.stdout) ==> Listed(trace, appId, id)
  {
    forall id | id in Ids(trace[at].answer.exit.stdout) ensures Listed(trace, appId, id) {
      assert Lists(trace[at], appId, id);
    }
  }

  lemma {:induction false} ToRemoveNext(ids: seq<string>, i: nat, keepId: string)
    requires i < |ids|
    ensures ToRemove(ids[..i + 1], keepId)
         == if ids[i] == keepId then ToRemove(ids[..i], keepId) else ToRemove(ids[..i], keepId) + [ids[i]]
  {
    assert ids[..i + 1][..i] == ids[..i];
  }

  lemma {:induction false} NoneRemoved(keepId: string)
    ensures ToRemove([], keepId) == [] && Removes([], [])
  {
  }

  lemma {:induction false} RemovesNext(trace: Trace, keys: seq<string>, e: Effect, key: string)
    requires Removes(trace, keys) && IsExit(e, RemoveContainer(key))
    ensures Removes(trace + [e], keys + [key])
  {
  }

  lemma {:induction false} SweepParts(appId: string, keep: string, sweep: Trace, head: Trace, removals: Trace)
    requires sweep == head + removals && |head| == (if keep == "" then 1 else 2) && IsExit(head[0], ListLabelled(appId))
    requires keep != "" ==> IsExit(head[1], InspectId(keep))
    requires Removes(removals, ToRemove(Ids(head[0].answer.exit.stdout),
                                        if keep == "" then "" else FirstLine(head[1].answer.exit.stdout)))
    ensures IsSweep(appId, keep, sweep)
  {
    assert sweep[|head|..] == removals;
  }

  /** Probes of one address: unanswered but for the last of a healthy one; an unhealthy one used up its attempts. */
  predicate IsProbing(probes: Trace, host: string, port: nat, healthy: bool, attempts: nat) {
    && |probes| <= attempts && (if healthy then probes != [] else |probes| == attempts)
    && forall i :: 0 <= i < |probes| ==> probes[i] == Probed(host, port, healthy && i == |probes| - 1)
  }

  /** Each container was asked for its port in turn; only the last one's answer names one, and it is `port`, or none
      does and it is "". */
  ghost predicate FirstRouted(cids: seq<string>, port: string, asked: Trace) {
    && |asked| == |cids|
    && (forall i :: 0 <= i < |cids| ==>
          && IsExit(asked[i], Port(cids[i]))
          && RoutedPort(asked[i].answer.exit) == if i == |cids| - 1 then port else "")
    && (cids == [] ==> port == "")
  }

  lemma {:induction false} NoneAsked()
    ensures FirstRouted([], "", [])
  {
  }

  lemma {:induction false} FirstRoutedNext(cids: seq<string>, i: nat, asked: Trace, e: Effect)
    requires i < |cids| && FirstRouted(cids[..i], "", asked) && IsExit(e, Port(cids[i]))
    ensures FirstRouted(cids[..i + 1], RoutedPort(e.answer.exit), asked + [e])
  {
    hide RoutedPort;
  }

  /** How the routed port was found: the service's, or that of the first container that has one. */
  ghost predicate IsRouting(app: App, port: string, asked: Trace) {
    var project := ContainerName(app.id);
    if app.service != "" then
      |asked| == 1 && IsExit(asked[0], ComposePort(project, app.service)) && RoutedPort(asked[0].answer.exit) == port
    else
      && asked != [] && IsExit(asked[0], ComposePs(project))
      && var cids := Ids(asked[0].answer.exit.stdout);
         |asked| - 1 <= |cids| && FirstRouted(cids[..|asked| - 1], port, asked[1..])
         && (port == "" ==> |asked| - 1 == |cids|)
  }

  lemma {:induction false} RoutingParts(app: App, cids: seq<string>, i: nat, port: string, asked: Trace)
    requires app.service == "" && asked != [] && IsExit(asked[0], ComposePs(ContainerName(app.id)))
    requires cids == Ids(asked[0].answer.exit.stdout) && i <= |cids| && (port == "" ==> i == |cids|)
    requires FirstRouted(cids[..i], port, asked[1..])
    ensures IsRouting(app, port, asked)
  {
  }

  // ---- the run ----

  /** A value, or an exception; `cancelled` when it is a CancelledError. */
  datatype Outcome<+T> = Ok(value: T) | Throws(cancelled: bool) {
    predicate IsFailure() { Throws? }

    function PropagateFailure<U>(): Outcome<U>
      requires Throws?
    {
      Throws(cancelled)
    }

    function Extract(): T
      requires Ok?
    {
      value
    }
  }

  datatype Nothing = Nothing

  class Executor {
    const job: Job
    var trace: Trace
    var local: Local
    var stage: Stage
    var login: bool

    constructor (job: Job)
      ensures this.job == job && trace == [] && Unstarted()
    {
      this.job := job;
      trace, local, stage, login := [], Local(Looking, {}, 0), Unsourced, false;
    }

    ghost predicate Valid()
      reads this
    {
      && AllowedTrace(job, trace) && local == LocalOf(trace) && stage == StageOf(job, trace) && login == LoginOf(trace)
      && Placed(trace, local.pc) && Numbered(local) && (login ==> local.pc.Working?)
    }

    ghost predicate Unstarted()
      reads this
    {
      Valid() && local.pc.Looking? && local.open == {} && stage.Unsourced? && !login
    }

    /** At work, before the success is written. */
    ghost predicate AtWork()
      reads this
    {
      Valid() && local.pc.Working? && !login
    }

    method Do(op: Op)
      requires Valid() && Allowed(job, trace, Step(op)) && !login
      modifies this
      ensures Valid() && trace == old(trace) + [Step(op)] && Some(local) == LocalNext(old(local), op)
      ensures stage == old(stage) && !login
    {
      Snoc(job, trace, Step(op));
      PlacedNext(trace, local, Step(op));
      OpenNext(local, op);
      local := LocalNext(local, op).value;
      trace := trace + [Step(op)];
    }

    /** An effect that is no database step. */
    method Record(e: Effect)
      requires Valid() && Allowed(job, trace, e) && !e.Step? && (LoginNext(login, e) ==> local.pc.Working?)
      modifies this`trace, this`stage, this`login
      ensures Valid() && trace == old(trace) + [e]
      ensures stage == StageNext(job, old(stage), e) && login == LoginNext(old(login), e)
    {
      Snoc(job, trace, e);
      PlacedNext(trace, local, e);
      stage, login := StageNext(job, stage, e), LoginNext(login, e);
      trace := trace + [e];
    }

    /** A write of the run's own: done, or it throws. */
    method Write(op: Op) returns (o: Outcome<Nothing>)
      requires Valid() && Allowed(job, trace, Step(op)) && !login
      modifies this
      ensures Valid() && old(trace) <= trace && !login && o.Ok? == job.env.write(old(trace), op)
      ensures o.Ok? ==>
        trace == old(trace) + [Step(op)] && Some(local) == LocalNext(old(local), op) && stage == old(stage)
      ensures o.Throws? ==> trace == old(trace) + [Refused(op)] && local == old(local) && !o.cancelled
      ensures o.Throws? && (op.Start? || op.Finish? || op.Succeed?) && !old(stage).Doomed? ==> stage == Doomed(false)
      ensures old(stage).Doomed? ==> stage == old(stage)
    {
      if job.env.write(trace, op) {
        Do(op);
        return Ok(Nothing);
      }
      Record(Refused(op));
      return Throws(false);
    }

    method Exec(cmd: Command) returns (o: Outcome<Exit>)
      requires Valid() && MayRun(job, trace, cmd) && InTry(local.pc) && (cmd.Login? ==> local.pc.Working?)
      modifies this`trace, this`stage, this`login
      ensures Valid() && trace == old(trace) + [Ran(cmd, if o.Ok? then Exited(o.value) else Broke)]
      ensures stage == StageNext(job, old(stage), trace[|trace| - 1])
      ensures login == LoginNext(old(login), trace[|trace| - 1])
      ensures o.Throws? ==> !o.cancelled
    {
      var answer := job.env.exec(trace, cmd);
      Record(Ran(cmd, answer));
      return if answer.Exited? then Ok(answer.exit) else Throws(false);
    }

    method Await(what: Call) returns (o: Outcome<Nothing>)
      requires Valid() && MayCall(local.pc, what)
      modifies this`trace, this`stage, this`login
      ensures Valid() && trace == old(trace) + [Called(what, o.Ok?)] && login == old(login)
      ensures o.Ok? == job.env.call(old(trace), what) && (o.Throws? ==> !o.cancelled)
      ensures stage == if o.Ok? || old(stage).Doomed? || what.LookupApp? || what.ResolveTarget? || what.Converge?
                       then old(stage) else Doomed(false)
    {
      var ok := job.env.call(trace, what);
      Record(Called(what, ok));
      return if ok then Ok(Nothing) else Throws(false);
    }

    /** Still at work, with more done. */
    ghost predicate WorkedOn(before: Trace)
      reads this
    {
      AtWork() && before <= trace
    }

    /** Throwing this exception now is right: the run is doomed, or its settings are not served. */
    predicate Throwing(cancelled: bool)
      reads this
    {
      stage == Doomed(cancelled) || (Unservable(job) && !stage.Doomed? && !cancelled)
    }

    method StartStep() returns (o: Outcome<nat>)
      requires AtWork()
      modifies this
      ensures WorkedOn(old(trace))
      ensures o.Ok? ==> local.open == old(local.open) + {o.value} && o.value !in old(local.open) && stage == old(stage)
      ensures o.Throws? ==> !o.cancelled && stage == if old(stage).Doomed? then old(stage) else Doomed(false)
    {
      var k := local.next;
      var _ :- Write(Start);
      return Ok(k);
    }

    method FinishStep(k: nat, ok: bool) returns (o: Outcome<Nothing>)
      requires AtWork() && k in local.open && (!ok ==> trace != [] && CausesFailure(job, trace))
      modifies this
      ensures WorkedOn(old(trace))
      ensures o.Ok? ==>
        local.open == old(local.open) - {k} && trace == old(trace) + [Step(Finish(k, ok))] && stage == old(stage)
      ensures o.Throws? ==> !o.cancelled && stage == if old(stage).Doomed? then old(stage) else Doomed(false)
    {
      o := Write(Finish(k, ok));
    }

    /** openRegistryCredential and docker login; whether a logout is due. */
    method LogIn() returns (o: Outcome<bool>)
      requires AtWork() && FromImage(job) && stage.Unsourced?
      modifies this`trace, this`stage, this`login
      ensures Valid() && old(trace) <= trace
      ensures login == (o.Ok? && o.value)
      ensures if o.Ok? then stage.Unsourced? else !o.cancelled && stage == Doomed(false)
    {
      if !job.app.hasCredential {
        return Ok(false);
      }
      var _ :- Await(OpenCredential);
      if !job.env.credentialFound {
        return Ok(false);
      }
      var exit :- Exec(Login);
      if exit.code != 0 {
        return Throws(false);
      }
      return Ok(true);
    }

    /** docker pull, and a logout whatever the pull did. */
    method PullAndLogOut(loggedIn: bool) returns (o: Outcome<Exit>)
      requires Valid() && local.pc.Working? && login == loggedIn && FromImage(job) && stage.Unsourced?
      modifies this`trace, this`stage, this`login
      ensures WorkedOn(old(trace))
      ensures stage == if o.Ok? && o.value.code == 0 then Sourced(job.app.image) else Doomed(false)
      ensures o.Throws? ==> !o.cancelled
    {
      o := Exec(Pull(job.app.image));
      if loggedIn {
        var _ := Exec(Logout);
      }
    }

    /** A registry image: log in if the app has a credential, pull, log out whatever the pull did. */
    method PullImage() returns (o: Outcome<string>)
      requires AtWork() && FromImage(job) && stage.Unsourced?
      modifies this
      ensures WorkedOn(old(trace))
      ensures o.Ok? ==> local.open == old(local.open) && stage == Sourced(o.value) && o.value == job.app.image
      ensures o.Throws? ==> !o.cancelled && stage == Doomed(false)
    {
      hide AllowedTrace, LocalOf, Has, Numbered, StageOf, LoginOf, Placed;
      var step :- StartStep();
      var loggedIn :- LogIn();
      var pull :- PullAndLogOut(loggedIn);
      if pull.code != 0 {
        return Throws(false);
      }
      var _ :- FinishStep(step, true);
      return Ok(job.app.image);
    }

    /** git clone; a child killed by the run's signal makes it a cancel. */
    method CloneRepo() returns (o: Outcome<Nothing>)
      requires AtWork() && FromRepo(job) && stage.Unsourced?
      modifies this`trace, this`stage, this`login
      ensures WorkedOn(old(trace))
      ensures o.Ok? ==> stage.Fetched?
      ensures o.Throws? ==> stage == Doomed(o.cancelled)
    {
      hide AllowedTrace, LocalOf, Numbered, LoginOf, StageOf, Has;
      var branch := if job.opts.preview.Some? then job.opts.preview.value.branch else job.app.branch;
      var clone :- Exec(Clone(branch));
      if clone.aborted {
        assert IsAbort(trace[|trace| - 1]);
        return Throws(true);
      }
      if clone.code != 0 {
        return Throws(false);
      }
      return Ok(Nothing);
    }

    /** The clone, and the commit it got. */
    method CloneHead() returns (o: Outcome<string>)
      requires AtWork() && FromRepo(job) && stage.Unsourced?
      modifies this`trace, this`stage, this`login
      ensures WorkedOn(old(trace))
      ensures o.Ok? ==> stage.Fetched?
      ensures o.Throws? ==> stage == Doomed(o.cancelled)
    {
      hide AllowedTrace, LocalOf, Has, Numbered, LoginOf, StageOf, Placed, FromRepo;
      var _ :- Await(CloneUrl);
      var _ :- CloneRepo();
      var head :- Exec(RevParse);
      return Ok(FirstLine(head.stdout));
    }

    method Fetch() returns (o: Outcome<string>)
      requires AtWork() && FromRepo(job) && stage.Unsourced?
      modifies this
      ensures WorkedOn(old(trace))
      ensures o.Ok? ==> local.open == old(local.open) && stage.Fetched?
      ensures o.Throws? ==> stage == Doomed(o.cancelled)
    {
      hide AllowedTrace, LocalOf, Has, Numbered, LoginOf, StageOf, Placed, FromRepo;
      var _ :- Await(PrepareWorkdir);
      var step :- StartStep();
      var commit :- CloneHead();
      var _ :- FinishStep(step, true);
      return Ok(commit);
    }

    /** The strategy of the build; an app whose files or worker cannot serve it throws. */
    method ChooseStrategy() returns (o: Outcome<Strategy>)
      ensures o == if ChosenStrategy(job).Some? then Ok(ChosenStrategy(job).value) else Throws(false)
    {
      var strategy := job.app.strategy;
      if !job.env.remote {
        if strategy.Compose? {
          strategy := if job.env.hasDockerfile then Dockerfile else Nixpacks;
        }
        if strategy.Dockerfile? && !job.env.hasDockerfile {
          return Throws(false);
        }
      } else {
        if strategy.Compose? {
          strategy := Dockerfile;
        }
        if !strategy.Dockerfile? {
          return Throws(false);
        }
      }
      if strategy.Static? && !job.env.hasPublishDir {
        return Throws(false);
      }
      return Ok(strategy);
    }

    /** The builder itself, and the :latest tag. */
    method RunBuild(tag: string, strategy: Strategy) returns (o: Outcome<Nothing>)
      requires AtWork() && FromRepo(job) && stage.Fetched? && !TakesCompose(job)
      requires ChosenStrategy(job) == Some(strategy)
      modifies this`trace, this`stage, this`login
      ensures WorkedOn(old(trace))
      ensures o.Ok? ==> stage == Sourced(tag)
      ensures o.Throws? ==> stage == Doomed(o.cancelled)
    {
      hide AllowedTrace, LocalOf, Numbered, LoginOf, ChosenStrategy, StageOf, Has;
      var build :- Exec(Build(tag, strategy));
      if build.aborted {
        assert IsAbort(trace[|trace| - 1]);
        return Throws(true);
      }
      if build.code != 0 {
        return Throws(false);
      }
      var _ :- Exec(TagLatest(tag));
      return Ok(Nothing);
    }

    method BuildImage(commit: string) returns (o: Outcome<string>)
      requires AtWork() && FromRepo(job) && stage.Fetched? && !TakesCompose(job)
      modifies this
      ensures WorkedOn(old(trace))
      ensures o.Ok? ==>
        local.open == old(local.open) && stage == Sourced(ImageTag(job.app.id, commit)) && o.value == stage.tag
      ensures o.Throws? ==> Throwing(o.cancelled)
    {
      hide AllowedTrace, LocalOf, Has, Numbered, LoginOf, ChosenStrategy, StageOf, Placed;
      var step :- StartStep();
      var tag := ImageTag(job.app.id, commit);
      var strategy :- ChooseStrategy();
      if strategy.Static? {
        var _ :- Await(WriteFile);
      }
      var _ :- RunBuild(tag, strategy);
      var _ :- FinishStep(step, true);
      return Ok(tag);
    }

    /** The stage of a health check after so many unanswered probes. */
    ghost predicate Probing(host: string, port: nat, tries: nat)
      reads this
    {
      if tries >= job.env.healthAttempts then stage == Doomed(false)
      else
        || (stage == Mapped(port, tries) && host == Host(job))
        || (stage == ComposeRouted(port, tries) && host == LOOPBACK)
    }

    /** Probes until one answers, at most healthAttempts times. */
    method WaitHealthy(host: string, port: nat) returns (healthy: bool)
      requires AtWork() && Probing(host, port, 0)
      modifies this`trace, this`stage, this`login
      ensures WorkedOn(old(trace)) && IsProbing(trace[|old(trace)|..], host, port, healthy, job.env.healthAttempts)
      ensures healthy ==> !old(stage).Doomed?
      ensures stage == if healthy then (if old(stage).Mapped? then Healthy else ComposeHealthy) else Doomed(false)
    {
      hide AllowedTrace, LocalOf, Numbered, LoginOf, StageOf, Has, NewContainer;
      for i := 0 to job.env.healthAttempts
        invariant WorkedOn(old(trace)) && |trace| == |old(trace)| + i
        invariant forall k :: |old(trace)| <= k < |trace| ==> trace[k] == Probed(host, port, false)
        invariant Probing(host, port, i) && (i < job.env.healthAttempts ==> stage.Mapped? == old(stage).Mapped?)
      {
        var ok := job.env.probe(trace, host, port);
        Record(Probed(host, port, ok));
        if ok {
          return true;
        }
      }
      return false;
    }

    /** The pre-deploy hook against the new image, in a step of its own. */
    method RunPreHook(tag: string) returns (o: Outcome<Nothing>)
      requires AtWork() && ReadyTag(job, stage) == Some(tag)
      modifies this
      ensures WorkedOn(old(trace))
      ensures o.Ok? ==> local.open == old(local.open) && stage == Migrated(tag)
      ensures o.Throws? ==> !o.cancelled && stage == Doomed(false)
    {
      hide AllowedTrace, LocalOf, Numbered, LoginOf, StageOf, Has;
      var step :- StartStep();
      var pre :- Exec(PreHook(tag, job.app.preDeploy));
      if pre.code != 0 {
        var _ :- FinishStep(step, false);
        return Throws(false);
      }
      var _ :- FinishStep(step, true);
      return Ok(Nothing);
    }

    /** Clears a stale container of the new name, then runs the new one beside the old ones; the port it got. */
    method RunNew(tag: string) returns (o: Outcome<string>)
      requires AtWork() && StartTag(job, stage) == Some(tag)
      modifies this`trace, this`stage, this`login
      ensures WorkedOn(old(trace))
      ensures o.Ok? ==> !IsCompose(stage)
      ensures o.Ok? ==>
        if PortNumber(o.value) == 0 then stage == Doomed(false) else Probing(Host(job), PortNumber(o.value), 0)
      ensures o.Throws? ==> !o.cancelled && stage == Doomed(false)
    {
      hide AllowedTrace, LocalOf, Numbered, LoginOf, StageOf, Has, NewContainer, PortNumber, Host, Probing;
      var name := NewContainer(job);
      var _ :- Exec(RemoveContainer(name));
      var run :- Exec(RunContainer(name, job.app.id, tag));
      if run.code != 0 {
        return Throws(false);
      }
      o := MapPort();
    }

    /** The host port docker gave the new container. */
    method MapPort() returns (o: Outcome<string>)
      requires AtWork() && stage.Up?
      modifies this`trace, this`stage, this`login
      ensures WorkedOn(old(trace))
      ensures o.Ok? ==> !IsCompose(stage)
      ensures o.Ok? ==>
        if PortNumber(o.value) == 0 then stage == Doomed(false) else Probing(Host(job), PortNumber(o.value), 0)
      ensures o.Throws? ==> !o.cancelled && stage == Doomed(false)
    {
      hide AllowedTrace, LocalOf, Numbered, LoginOf, StageOf, Has, Placed, NewContainer, PortNumber, HostPort, Host;
      var port :- Exec(Port(NewContainer(job)));
      return Ok(HostPort(port));
    }

    method StartContainer(tag: string) returns (o: Outcome<string>)
      requires AtWork() && ReadyTag(job, stage) == Some(tag)
      modifies this
      ensures WorkedOn(old(trace))
      ensures o.Ok? ==> local.open == old(local.open) && !IsCompose(stage)
      ensures o.Ok? ==>
        if PortNumber(o.value) == 0 then stage == Doomed(false) else Probing(Host(job), PortNumber(o.value), 0)
      ensures o.Throws? ==> !o.cancelled && stage == Doomed(false)
    {
      hide AllowedTrace, LocalOf, Has, Numbered, LoginOf, StageOf, Placed;
      var step :- StartStep();
      var _ :- Await(ResolveEnv);
      if job.app.preDeploy != "" {
        var _ :- RunPreHook(tag);
      }
      var hostPort :- RunNew(tag);
      var _ :- FinishStep(step, true);
      return Ok(hostPort);
    }

    /** docker rm -f of the bad new container, its step failed, and the exception. */
    method DiscardNew(step: nat) returns (o: Outcome<Nothing>)
      requires AtWork() && step in local.open && stage == Doomed(false)
      modifies this
      ensures WorkedOn(old(trace)) && o.Throws? && !o.cancelled && stage == Doomed(false)
    {
      hide AllowedTrace, LocalOf, Numbered, LoginOf, Has;
      var _ :- Exec(RemoveContainer(NewContainer(job)));
      var _ :- FinishStep(step, false);
      return Throws(false);
    }

    /** The health gate: a new container that does not answer is discarded. */
    method CheckHealth(hostPort: string) returns (o: Outcome<Nothing>)
      requires AtWork() && !IsCompose(stage)
      requires if PortNumber(hostPort) == 0 then stage == Doomed(false) else Probing(Host(job), PortNumber(hostPort), 0)
      modifies this
      ensures WorkedOn(old(trace))
      ensures o.Ok? ==> local.open == old(local.open) && stage.Healthy?
      ensures o.Throws? ==> !o.cancelled && stage == Doomed(false)
    {
      hide AllowedTrace, LocalOf, Numbered, LoginOf, StageOf, Has, IsProbing;
      var step :- StartStep();
      var healthy := false;
      if PortNumber(hostPort) > 0 {
        healthy := WaitHealthy(Host(job), PortNumber(hostPort));
      }
      if !healthy {
        o := DiscardNew(step);
        return;
      }
      var _ :- FinishStep(step, true);
      return Ok(Nothing);
    }

    method RunPostHook() returns (o: Outcome<Nothing>)
      requires AtWork() && stage.Healthy?
      modifies this
      ensures WorkedOn(old(trace))
      ensures o.Ok? ==> local.open == old(local.open) && stage.Hooked?
      ensures o.Throws? ==> !o.cancelled && stage == Doomed(false)
    {
      hide AllowedTrace, LocalOf, Numbered, LoginOf, StageOf, Has;
      var step :- StartStep();
      var post :- Exec(PostHook(NewContainer(job), job.app.postDeploy));
      if post.code != 0 {
        o := DiscardNew(step);
        return;
      }
      var _ :- FinishStep(step, true);
      return Ok(Nothing);
    }

    /** Everything up to the right to write success: new container, health, post-deploy hook. */
    method BringUp(tag: string) returns (o: Outcome<Nothing>)
      requires AtWork() && ReadyTag(job, stage) == Some(tag)
      modifies this
      ensures WorkedOn(old(trace))
      ensures o.Ok? ==> local.open == old(local.open) && (stage.Healthy? || stage.Hooked?) && MaySucceed(job, stage)
      ensures o.Throws? ==> !o.cancelled && stage == Doomed(false)
    {
      hide AllowedTrace, LocalOf, Has, Numbered, LoginOf, StageOf, Placed;
      var hostPort :- StartContainer(tag);
      var _ :- CheckHealth(hostPort);
      if job.app.postDeploy != "" {
        var _ :- RunPostHook();
      }
      return Ok(Nothing);
    }

    lemma {:induction false} MayRemove(before: Trace, now: Trace, id: string)
      requires before <= now && job.opts.preview.None? && Has(now, SuccessWritten) && Listed(before, job.app.id, id)
      requires id != KeptId(now) || IsCompose(StageOf(job, now))
      ensures MayRun(job, now, RemoveContainer(id))
    {
      ListedStays(before, now, job.app.id, id);
    }

    /** The success is written and the run goes on tidying up. */
    ghost predicate Tidying(before: Trace)
      reads this
    {
      Valid() && local.pc.Swapping? && !login && before <= trace
    }

    /** After tidying up: as before, or doomed if it threw and the throw is not swallowed. */
    predicate Tidied(before: Stage, ok: bool)
      reads this
    {
      stage == if ok || IsCompose(before) then before else Doomed(false)
    }

    /** Since `start` the run did nothing but remove the containers `done`. */
    ghost predicate RemovedSince(start: Trace, done: seq<string>)
      reads this
    {
      && Tidying(start) && KeptId(trace) == KeptId(start) && stage == StageOf(job, start)
      && Removes(trace[|start|..], done)
    }

    /** docker rm -f of one listed container, after `done` since `start`. */
    method RemoveOne(id: string, ghost start: Trace, ghost done: seq<string>) returns (o: Outcome<Nothing>)
      requires RemovedSince(start, done) && !stage.Doomed? && job.opts.preview.None?
      requires Listed(start, job.app.id, id) && (id != KeptId(start) || IsCompose(stage))
      modifies this`trace, this`stage, this`login
      ensures if o.Ok? then RemovedSince(start, done + [id]) else Tidying(start) && !o.cancelled
      ensures Tidied(old(stage), o.Ok?)
    {
      hide AllowedTrace, LocalOf, Numbered, LoginOf, StageOf, Has, NewContainer, Listed, Removes;
      MayRemove(start, trace, id);
      ghost var before := trace;
      var exit := Exec(RemoveContainer(id));
      KeptNext(before, trace[|before|]);
      if exit.Ok? {
        RemovesNext(before[|start|..], done, trace[|before|], id);
        DropSnoc(before, trace[|before|], |start|);
        return Ok(Nothing);
      }
      return Throws(false);
    }

    /** docker rm -f of every listed id but the kept one. */
    method RemoveAll(ids: seq<string>, keepId: string) returns (o: Outcome<Nothing>)
      requires Tidying(trace) && !stage.Doomed? && job.opts.preview.None?
      requires forall id :: id in ids ==> Listed(trace, job.app.id, id)
      requires keepId == KeptId(trace) || IsCompose(stage)
      modifies this`trace, this`stage, this`login
      ensures Tidying(old(trace)) && Tidied(old(stage), o.Ok?)
      ensures if o.Ok? then Removes(trace[|old(trace)|..], ToRemove(ids, keepId)) else !o.cancelled
    {
      hide AllowedTrace, LocalOf, Has, Numbered, LoginOf, Placed, StageOf, ToRemove, Removes, Listed, KeptId;
      var i := 0;
      NoneRemoved(keepId);
      assert ids[..0] == [] && trace[|trace|..] == [];
      while i < |ids|
        invariant i <= |ids| && RemovedSince(old(trace), ToRemove(ids[..i], keepId)) && stage == old(stage)
      {
        ToRemoveNext(ids, i, keepId);
        if ids[i] != keepId {
          var _ :- RemoveOne(ids[i], old(trace), ToRemove(ids[..i], keepId));
        }
        i := i + 1;
      }
      assert ids[..i] == ids;
      return Ok(Nothing);
    }

    /** The id of the container to keep, or "" when there is none or inspect does not know it. */
    method FindKept(keep: string) returns (o: Outcome<string>)
      requires Tidying(trace) && !stage.Doomed? && (keep != "" ==> !IsCompose(stage))
      modifies this`trace, this`stage, this`login
      ensures Tidying(old(trace)) && Tidied(old(stage), o.Ok?)
      ensures o.Ok? && keep == "" ==> o.value == "" && trace == old(trace)
      ensures o.Ok? && keep != "" ==>
        && |trace| == |old(trace)| + 1 && IsExit(trace[|old(trace)|], InspectId(keep))
        && o.value == FirstLine(trace[|old(trace)|].answer.exit.stdout) == KeptId(trace)
      ensures o.Throws? ==> !o.cancelled
    {
      if keep == "" {
        return Ok("");
      }
      var kept :- Exec(InspectId(keep));
      KeptNext(old(trace), trace[|old(trace)|]);
      return Ok(FirstLine(kept.stdout));
    }

    /** removeAppContainers: list the app's containers, find the one to keep, remove the others. */
    method RemoveAppContainers(keep: string) returns (o: Outcome<Nothing>)
      requires Tidying(trace) && !stage.Doomed? && job.opts.preview.None? && (keep != "" <==> !IsCompose(stage))
      modifies this`trace, this`stage, this`login
      ensures Tidying(old(trace)) && Tidied(old(stage), o.Ok?)
      ensures if o.Ok? then IsSweep(job.app.id, keep, trace[|old(trace)|..]) else !o.cancelled
    {
      hide AllowedTrace, LocalOf, Has, Numbered, ToRemove, KeptId, Removes, Listed, LoginOf, StageOf, Placed;
      var list :- Exec(ListLabelled(job.app.id));
      ghost var at := |old(trace)|;
      var keepId :- FindKept(keep);
      ghost var head := trace;
      AllListed(head, at, job.app.id);
      var _ :- RemoveAll(Ids(list.stdout), keepId);
      DropOfLonger(head, trace, at);
      SweepParts(job.app.id, keep, trace[at..], head[at..], trace[|head|..]);
      return Ok(Nothing);
    }

    /** Best-effort image pruning: nothing it meets fails the deploy. */
    method PruneImages()
      requires Tidying(trace) && !stage.Doomed?
      modifies this`trace, this`stage, this`login
      ensures Tidying(old(trace)) && stage == old(stage) && Calm(trace, |old(trace)|, |trace|)
    {
      hide AllowedTrace, LocalOf, Has, Numbered, LoginOf, StageOf, Placed;
      var listed := Exec(ListImages(ContainerName(job.app.id)));
      if listed.Ok? {
        var stale := job.env.prune(listed.value.stdout);
        var i := 0;
        while i < |stale|
          invariant i <= |stale| && Tidying(old(trace)) && stage == old(stage) && Calm(trace, |old(trace)|, |trace|)
        {
          var removed := Exec(RemoveImage(stale[i]));
          if removed.Throws? {
            return;
          }
          i := i + 1;
        }
      }
    }

    /** The health check of the project starts at this port. */
    ghost predicate RoutedTo(port: string)
      reads this
    {
      Probing(LOOPBACK, PortNumber(port), 0) && !stage.Mapped?
    }

    /** What docker answers to a question for a routed port; "" when there is none. */
    method AskPort(cmd: Command) returns (o: Outcome<string>)
      requires AtWork() && stage.ComposeIsUp? && (cmd.Port? || cmd.ComposePort?)
      modifies this`trace, this`stage, this`login
      ensures WorkedOn(old(trace)) && |trace| == |old(trace)| + 1 && trace == old(trace) + [trace[|old(trace)|]]
      ensures o.Ok? ==> IsExit(trace[|old(trace)|], cmd) && o.value == RoutedPort(trace[|old(trace)|].answer.exit)
      ensures o.Ok? ==> if o.value == "" then stage.ComposeIsUp? else RoutedTo(o.value)
      ensures o.Throws? ==> !o.cancelled && stage == Doomed(false)
    {
      hide AllowedTrace, LocalOf, Numbered, LoginOf, StageOf, Has, RoutedPort, PortNumber, HostPort, NewContainer,
        Placed;
      var exit :- Exec(cmd);
      return Ok(RoutedPort(exit));
    }

    /** The port that routes a compose project, or "": what the app's service publishes, or the first of the
        project's containers that publishes one; a container is asked only when none before it does. */
    method ComposeHostPort() returns (o: Outcome<string>)
      requires AtWork() && stage.ComposeIsUp?
      modifies this`trace, this`stage, this`login
      ensures WorkedOn(old(trace))
      ensures o.Ok? ==> IsRouting(job.app, o.value, trace[|old(trace)|..])
      ensures o.Ok? ==> if o.value == "" then stage.ComposeIsUp? else RoutedTo(o.value)
      ensures o.Throws? ==> !o.cancelled && stage == Doomed(false)
    {
      hide AllowedTrace, LocalOf, Numbered, LoginOf, StageOf, Has, Placed, RoutedPort, NewContainer, FirstRouted,
        RoutedTo;
      var project := ContainerName(job.app.id);
      if job.app.service != "" {
        o := AskPort(ComposePort(project, job.app.service));
        return;
      }
      var ps :- Exec(ComposePs(project));
      var cids := Ids(ps.stdout);
      ghost var asked := trace;
      var i, hostPort := 0, "";
      assert cids[..0] == [] && trace[|asked|..] == [];
      NoneAsked();
      while i < |cids| && hostPort == ""
        invariant i <= |cids| && WorkedOn(old(trace)) && asked <= trace
        invariant FirstRouted(cids[..i], hostPort, trace[|asked|..])
        invariant if hostPort == "" then stage.ComposeIsUp? else RoutedTo(hostPort)
        decreases |cids| - i
      {
        ghost var before := trace;
        hostPort :- AskPort(Port(cids[i]));
        FirstRoutedNext(cids, i, before[|asked|..], trace[|before|]);
        DropSnoc(before, trace[|before|], |asked|);
        i := i + 1;
      }
      RoutingParts(job.app, cids, i, hostPort, trace[|old(trace)|..]);
      return Ok(hostPort);
    }

    /** docker compose up. */
    method ComposeUpProject() returns (o: Outcome<Nothing>)
      requires AtWork() && TakesCompose(job) && !job.env.remote && stage.Fetched?
      modifies this`trace, this`stage, this`login
      ensures WorkedOn(old(trace))
      ensures o.Ok? ==> stage.ComposeIsUp?
      ensures o.Throws? ==> !o.cancelled && stage == Doomed(false)
    {
      hide AllowedTrace, LocalOf, Numbered, LoginOf, StageOf, Has;
      var up :- Exec(ComposeUp(ContainerName(job.app.id)));
      if up.code != 0 {
        return Throws(false);
      }
      return Ok(Nothing);
    }

    method ComposeStart() returns (o: Outcome<Nothing>)
      requires AtWork() && TakesCompose(job) && !job.env.remote && stage.Fetched?
      modifies this
      ensures WorkedOn(old(trace))
      ensures o.Ok? ==> local.open == old(local.open) && stage.ComposeIsUp?
      ensures o.Throws? ==> !o.cancelled && stage == Doomed(false)
    {
      hide AllowedTrace, LocalOf, Has, Numbered, LoginOf, StageOf, Placed;
      var step :- StartStep();
      var _ :- Await(ResolveEnv);
      var _ :- Await(WriteFile);
      var _ :- ComposeUpProject();
      var _ :- FinishStep(step, true);
      return Ok(Nothing);
    }

    /** The probe of a routed compose project; one that does not answer fails the step. */
    method ComposeHealth(hostPort: string) returns (o: Outcome<Nothing>)
      requires AtWork() && TakesCompose(job)
      requires if hostPort == "" then stage.ComposeIsUp? else RoutedTo(hostPort)
      modifies this
      ensures WorkedOn(old(trace))
      ensures o.Ok? ==> local.open == old(local.open)
      ensures o.Ok? ==> if hostPort == "" then stage.ComposeIsUp? else stage.ComposeHealthy?
      ensures o.Throws? ==> !o.cancelled && stage == Doomed(false)
    {
      hide AllowedTrace, LocalOf, Has, Numbered, LoginOf, StageOf, Placed, IsProbing;
      var step :- StartStep();
      if hostPort != "" {
        var healthy := WaitHealthy(LOOPBACK, PortNumber(hostPort));
        if !healthy {
          StartedSomething(job, trace);
          var _ :- FinishStep(step, false);
          return Throws(false);
        }
      }
      var _ :- FinishStep(step, true);
      return Ok(Nothing);
    }

    /** composeUp as far as its success write. */
    method ComposeBringUp() returns (o: Outcome<Nothing>)
      requires AtWork() && TakesCompose(job) && !job.env.remote && stage.Fetched?
      modifies this
      ensures WorkedOn(old(trace))
      ensures o.Ok? ==> local.open == old(local.open) && (stage.ComposeIsUp? || stage.ComposeHealthy?)
      ensures o.Throws? ==> !o.cancelled && stage == Doomed(false)
    {
      hide AllowedTrace, LocalOf, Has, Numbered, LoginOf, StageOf, Placed, IsRouting;
      var _ :- ComposeStart();
      var hostPort :- ComposeHostPort();
      o := ComposeHealth(hostPort);
    }

    /** composeUp; removing what an earlier single-container deploy left is best-effort. */
    method ComposeDeploy() returns (o: Outcome<Nothing>)
      requires AtWork() && TakesCompose(job) && !job.env.remote && stage.Fetched? && local.open == {}
      modifies this
      ensures Valid() && old(trace) <= trace && InTry(local.pc) && !login
      ensures o.Ok? ==> local.pc.Swapping? && IsCompose(stage)
      ensures o.Throws? ==> !o.cancelled && stage == Doomed(false)
    {
      hide AllowedTrace, LocalOf, Has, Numbered, LoginOf, StageOf, Placed, IsSweep;
      var _ :- ComposeBringUp();
      var _ :- Write(Succeed);
      var _ := Await(Converge);
      var _ := RemoveAppContainers("");
      return Ok(Nothing);
    }

    /** Where the run stands once it knows what to run, or that compose has finished it. */
    ghost predicate SourcedOr(before: Trace, tag: Option<string>)
      reads this
    {
      && Valid() && before <= trace && !login
      && if tag.None? then local.pc.Swapping? && IsCompose(stage)
         else local.pc.Working? && local.open == {} && ReadyTag(job, stage) == tag
    }

    /** Fetch and build, or the whole compose deploy: the tag to run, or None when compose has finished. */
    method RepoSource() returns (o: Outcome<Option<string>>)
      requires AtWork() && local.open == {} && FromRepo(job) && stage.Unsourced?
      modifies this
      ensures Valid() && old(trace) <= trace && InTry(local.pc) && !login
      ensures o.Ok? ==> SourcedOr(old(trace), o.value)
      ensures o.Throws? ==> Throwing(o.cancelled)
    {
      hide AllowedTrace, LocalOf, Has, Numbered, LoginOf, StageOf, Placed;
      var commit :- Fetch();
      if job.app.strategy.Compose? && job.opts.preview.None? {
        var _ :- Await(ComposeFile);
        if job.env.hasComposeFile {
          if job.env.remote {
            return Throws(false);
          }
          var _ :- ComposeDeploy();
          return Ok(None);
        }
      }
      var tag :- BuildImage(commit);
      return Ok(Some(tag));
    }

    /** What to run: an earlier image, a registry image, or what the repo builds. */
    method Source() returns (o: Outcome<Option<string>>)
      requires AtWork() && local.open == {} && stage.Unsourced?
      modifies this
      ensures Valid() && old(trace) <= trace && InTry(local.pc) && !login
      ensures o.Ok? ==> SourcedOr(old(trace), o.value)
      ensures o.Throws? ==> Throwing(o.cancelled)
    {
      hide AllowedTrace, LocalOf, Has, Numbered, LoginOf, StageOf, Placed;
      if job.opts.image != "" {
        return Ok(Some(job.opts.image));
      } else if job.app.image != "" {
        var tag :- PullImage();
        return Ok(Some(tag));
      } else if job.app.hasRepo {
        o := RepoSource();
      } else {
        return Throws(false);
      }
    }

    /** A preview's tail: stamp its row, route it, read its domain for the comment. */
    method StampRow() returns (o: Outcome<Nothing>)
      requires Tidying(trace) && !IsCompose(stage) && !stage.Doomed?
      modifies this`trace, this`stage, this`login
      ensures Tidying(old(trace)) && Tidied(old(stage), o.Ok?)
      ensures if o.Ok? then Has(trace, Stamped) else !o.cancelled
    {
      var _ :- Await(StampPreview);
      assert Marks(trace[|trace| - 1], Stamped);
      ghost var stamped := trace;
      var _ := Await(Converge);
      o := Await(PreviewDomain);
      HasStays(stamped, trace, Stamped);
    }

    /** Removing the old containers, then the old images. Success was written at s. */
    method RetireOld(ghost s: nat) returns (o: Outcome<Nothing>)
      requires Tidying(trace) && !IsCompose(stage) && !stage.Doomed? && job.opts.preview.None?
      requires s < |trace| && trace[s] == Step(Succeed) && Calm(trace, s + 1, |trace|)
      modifies this`trace, this`stage, this`login
      ensures Tidying(old(trace)) && Tidied(old(stage), o.Ok?)
      ensures if o.Ok? then SweptOnce(job, trace) else !o.cancelled
    {
      hide AllowedTrace, LocalOf, Has, Numbered, LoginOf, StageOf, Placed, IsSweep, NewContainer;
      NewContainerIsNamed(job);
      var _ :- RemoveAppContainers(NewContainer(job));
      ghost var swept := trace;
      PruneImages();
      assert trace[|old(trace)|..|swept|] == swept[|old(trace)|..];
      assert SweptBetween(job, trace, s, |old(trace)|, |swept|);
      return Ok(Nothing);
    }

    /** After the success write: route, then remove the old containers; a preview only stamps its row. */
    method Swap() returns (o: Outcome<Nothing>)
      requires Tidying(trace) && !IsCompose(stage) && !stage.Doomed? && trace != []
      requires trace[|trace| - 1] == Step(Succeed)
      modifies this`trace, this`stage, this`login
      ensures Tidying(old(trace)) && Tidied(old(stage), o.Ok?)
      ensures if o.Throws? then !o.cancelled
              else if job.opts.preview.Some? then Has(trace, Stamped)
              else SweptOnce(job, trace)
    {
      hide AllowedTrace, LocalOf, Has, Numbered, LoginOf, StageOf, Placed, SweptOnce;
      var _ := Await(Converge);
      if job.opts.preview.Some? {
        o := StampRow();
      } else {
        o := RetireOld(|old(trace)| - 1);
      }
    }

    /** The body of the try. */
    method Pipeline() returns (o: Outcome<Nothing>)
      requires AtWork() && local.open == {} && stage.Unsourced?
      modifies this
      ensures Valid() && old(trace) <= trace && InTry(local.pc) && !login
      ensures o.Ok? ==> local.pc.Swapping? && RightStep(job, trace, Return)
      ensures o.Throws? ==> Throwing(o.cancelled)
    {
      hide AllowedTrace, LocalOf, Has, Numbered, LoginOf, StageOf, Placed, SweptOnce;
      var tag :- Source();
      if tag.None? {
        return Ok(Nothing);
      }
      var _ :- BringUp(tag.value);
      var _ :- Write(Succeed);
      o := Swap();
    }

    /** failDeployment for a row whose app is gone; the run has claimed nothing. */
    method DropDeployment()
      requires Valid() && local.pc.Looking? && job.env.rowExists && !job.env.appExists && !login
      modifies this
      ensures Valid() && old(trace) <= trace && (local.pc.Returned? || local.pc.Rejected?)
    {
      hide AllowedTrace, LocalOf, Has, LoginOf, StageOf;
      var o := Write(MissingApp);
      if o.Ok? {
        o := Write(DropSteps);
      }
      if o.Throws? {
        Do(WriteRejects);
      }
    }

    /** The two writes of the catch; if one rejects, so does the run. */
    method RecordOutcome()
      requires Valid() && local.pc.Caught? && !login
      modifies this
      ensures Valid() && old(trace) <= trace && local.pc.Clearing? && !login
      ensures WritesWork(job.env) ==> local.pc.normally
    {
      hide AllowedTrace, LocalOf, Has, LoginOf, StageOf;
      var o := Write(DeployProtocol.Op.Record);
      if o.Ok? {
        o := Write(SweepSteps);
      }
      if o.Throws? {
        Do(WriteRejects);
      }
    }

    /** The catch: cancelled if the exception says so or a cancel was requested, failed otherwise. */
    method Handle(cancelledError: bool)
      requires Valid() && InTry(local.pc) && !login && Throwing(cancelledError)
      modifies this
      ensures Valid() && local.pc.Clearing? && !login && (WritesWork(job.env) ==> local.pc.normally)
      ensures old(trace) + [Step(Throw(cancelledError || job.env.cancelRequested(old(trace))))] <= trace
    {
      hide AllowedTrace, LocalOf, Has, StageOf;
      Do(Throw(cancelledError || job.env.cancelRequested(trace)));
      RecordOutcome();
    }

    /** The try with its catch and finally. */
    method TryPipeline()
      requires AtWork() && local.open == {} && stage.Unsourced?
      modifies this
      ensures Valid() && old(trace) <= trace && (local.pc.Returned? || local.pc.Rejected?)
      ensures WritesWork(job.env) ==> local.pc.Returned?
    {
      hide AllowedTrace, LocalOf, Has, LoginOf, StageOf, WritesWork;
      var o := Pipeline();
      ghost var ran := trace;
      if o.Ok? {
        Do(Return);
      } else {
        Handle(o.cancelled);
      }
      assert ran <= trace;
      Do(Clear);
    }

    /** A run that won the claim. */
    method RunClaimed()
      requires Valid() && local.pc.Claimed? && local.open == {} && stage.Unsourced? && !login
      modifies this
      ensures Valid() && old(trace) <= trace && (local.pc.Returned? || local.pc.Rejected? || local.pc.Escaped?)
      ensures var resolved := job.env.call(old(trace) + [Step(Register)], ResolveTarget);
        && (local.pc.Escaped? <==> !resolved) && (WritesWork(job.env) ==> (local.pc.Returned? <==> resolved))
    {
      hide AllowedTrace, LocalOf, Has, LoginOf, StageOf, WritesWork;
      Do(Register);
      var target := Await(ResolveTarget);
      if target.Throws? {
        Do(TargetThrows);
        return;
      }
      Do(Enter);
      TryPipeline();
    }

    /** executeDeploy. It ends returned, rejected, or escaped between the claim and the try. */
    method ExecuteDeploy()
      requires Unstarted() && trace == []
      modifies this
      ensures Valid() && (local.pc.Returned? || local.pc.Rejected? || local.pc.Escaped?)
      ensures ClaimIsWon(job.env) ==>
        && (local.pc.Escaped? <==> !Resolves(job.env))
        && (WritesWork(job.env) ==> (local.pc.Returned? <==> Resolves(job.env)))
    {
      hide AllowedTrace, LocalOf, Has, Numbered, LoginOf, StageOf, Placed, WritesWork;
      if !job.env.rowExists {
        Do(NotFound);
        return;
      }
      var lookup := Await(LookupApp);
      if lookup.Throws? {
        Do(WriteRejects);
        return;
      }
      if !job.env.appExists {
        DropDeployment();
        return;
      }
      assert trace == CLAIMED[..1];
      var won := job.env.claim(trace);
      Do(Claim(won));
      if won {
        assert trace + [Step(Register)] == CLAIMED;
        RunClaimed();
      }
    }
  }

  /** Every database write the run makes is accepted. */
  ghost predicate WritesWork(env: Env) {
    forall before, op :: env.write(before, op)
  }

  const CLAIMED: Trace := [Called(LookupApp, true), Step(Claim(true)), Step(Register)]

  /** The row and the app are there, and the row was still queued. */
  predicate ClaimIsWon(env: Env) {
    env.rowExists && env.call([], LookupApp) && env.appExists && env.claim(CLAIMED[..1])
  }

  /** Resolving the target server, the only call between the claim and the try, works. */
  predicate Resolves(env: Env) {
    env.call(CLAIMED, ResolveTarget)
  }

  /** A whole run of executeDeploy, from nothing: its trace is allowed at every point. A run that wins the claim
      escapes its own handler exactly when the target server does not resolve; so, if the database takes every write,
      it returns exactly when it does. */
  method RunDeploy(job: Job) returns (trace: Trace, ghost end: Pc)
    ensures AllowedTrace(job, trace) && end == LocalOf(trace).pc
    ensures end.Returned? || end.Rejected? || end.Escaped?
    ensures ClaimIsWon(job.env) ==> (end.Escaped? <==> !Resolves(job.env))
    ensures ClaimIsWon(job.env) && WritesWork(job.env) ==> (end.Returned? <==> Resolves(job.env))
  {
    var executor := new Executor(job);
    executor.ExecuteDeploy();
    return executor.trace, executor.local.pc;
  }

  // ---- every point of a run ----

  lemma {:induction false} AllowedAt(job: Job, trace: Trace, k: nat)
    requires AllowedTrace(job, trace) && k < |trace|
    ensures AllowedTrace(job, trace[..k]) && Allowed(job, trace[..k], trace[k])
  {
    hide Allowed;
    assert RightAt(job, trace, k);
    forall i ensures RightAt(job, trace[..k], i) {
      assert RightAt(job, trace, i) && (0 <= i < k ==> trace[..k][..i] == trace[..i]);
    }
  }

  /** The run takes only the protocol's steps, each from the place the earlier ones led to. */
  lemma {:induction false} StepsFollowTheProtocol(job: Job, trace: Trace, k: nat)
    requires AllowedTrace(job, trace) && k < |trace|
    ensures trace[k].Step? ==> LocalNext(LocalOf(trace[..k]), trace[k].op) == Some(LocalOf(trace[..k + 1]))
    ensures !trace[k].Step? ==> LocalOf(trace[..k + 1]) == LocalOf(trace[..k])
  {
    AllowedAt(job, trace, k);
    assert trace[..k + 1] == trace[..k] + [trace[k]];
    Snoc(job, trace[..k], trace[k]);
  }

  // ---- how the try ends ----

  /** How the try body was left. */
  datatype Ending = Open | ByReturn | ByThrow

  function EndingOf(trace: Trace): Ending {
    if trace == [] then Open
    else
      match trace[|trace| - 1]
      case Step(Return) => ByReturn
      case Step(Throw(_)) => ByThrow
      case _ => EndingOf(trace[..|trace| - 1])
  }

  predicate Entered(trace: Trace) {
    trace != [] && (trace[|trace| - 1] == Step(Enter) || Entered(trace[..|trace| - 1]))
  }

  /** Effect i is the first that the run must throw for. */
  ghost predicate FirstFatal(job: Job, trace: Trace, i: int) {
    && 0 <= i < |trace| && Fatal(job, StageOf(job, trace[..i]), trace[i])
    && forall k :: 0 <= k < i ==> !FatalAt(job, trace, k)
  }

  ghost predicate FatalAt(job: Job, trace: Trace, i: int) {
    0 <= i < |trace| && Fatal(job, StageOf(job, trace[..i]), trace[i])
  }

  ghost predicate SomethingFatal(job: Job, trace: Trace) {
    exists i :: FatalAt(job, trace, i)
  }

  lemma {:induction false} FatalEarlier(job: Job, trace: Trace, i: int)
    requires trace != [] && i < |trace| - 1
    ensures FatalAt(job, trace, i) <==> FatalAt(job, trace[..|trace| - 1], i)
  {
    if i >= 0 {
      assert trace[..|trace| - 1][..i] == trace[..i];
    }
  }

  /** A trace is doomed exactly when one of its effects was fatal. */
  lemma {:induction false} DoomIsFatal(job: Job, trace: Trace)
    ensures StageOf(job, trace).Doomed? <==> SomethingFatal(job, trace)
  {
    if trace != [] {
      hide Fatal, StageAfter, StageProbed, IsAbort, FatalAt;
      var n := |trace| - 1;
      var before := trace[..n];
      DoomIsFatal(job, before);
      LastFatal(job, trace);
      forall i | i < n ensures FatalAt(job, trace, i) <==> FatalAt(job, before, i) {
        FatalEarlier(job, trace, i);
      }
      if StageOf(job, before).Doomed? {
        var i :| FatalAt(job, before, i);
        FatalBelow(job, before, i);
        assert FatalAt(job, trace, i);
      } else if SomethingFatal(job, trace) {
        var i :| FatalAt(job, trace, i);
        FatalBelow(job, trace, i);
        assert i < n ==> FatalAt(job, before, i);
      }
    }
  }

  lemma {:induction false} LastFatal(job: Job, trace: Trace)
    requires trace != []
    ensures FatalAt(job, trace, |trace| - 1)
       <==> Fatal(job, StageOf(job, trace[..|trace| - 1]), trace[|trace| - 1])
  {
  }

  lemma {:induction false} FatalBelow(job: Job, trace: Trace, i: int)
    requires FatalAt(job, trace, i)
    ensures 0 <= i < |trace|
  {
  }

  /** The first fatal effect says whether the run is doomed to be cancelled. */
  lemma {:induction false} FirstFatalDooms(job: Job, trace: Trace, i: int)
    requires FirstFatal(job, trace, i)
    ensures 0 <= i < |trace| && StageOf(job, trace) == Doomed(IsAbort(trace[i]))
  {
    hide Fatal, StageAfter, StageProbed, IsAbort;
    var n := |trace| - 1;
    var before := trace[..n];
    if i < n {
      FatalEarlier(job, trace, i);
      forall k | 0 <= k < i ensures !FatalAt(job, before, k) {
        FatalEarlier(job, trace, k);
      }
      FirstFatalDooms(job, before, i);
    } else {
      forall k ensures !FatalAt(job, before, k) {
        if 0 <= k < n {
          FatalEarlier(job, trace, k);
        }
      }
      DoomIsFatal(job, before);
    }
  }

  /** Settings that are not served lead to no image and no container. */
  lemma {:induction false} UnservableStage(job: Job, trace: Trace)
    requires AllowedTrace(job, trace) && Unservable(job)
    ensures Sourceless(StageOf(job, trace))
  {
    if trace != [] {
      var n := |trace| - 1;
      AllowedAt(job, trace, n);
      UnservableStage(job, trace[..n]);
      UnservableNext(job, trace[..n], trace[n]);
    }
  }

  predicate Sourceless(stage: Stage) {
    stage.Unsourced? || stage.Fetched? || stage.Doomed?
  }

  /** The commands that lead on to an image or a container. */
  predicate LeadsOn(cmd: Command) {
    cmd.Pull? || cmd.Build? || cmd.PreHook? || cmd.RunContainer? || cmd.PostHook? || cmd.ComposeUp?
  }

  lemma {:induction false} UnservableRuns(job: Job, before: Trace, cmd: Command)
    requires MayRun(job, before, cmd) && Unservable(job) && Sourceless(StageOf(job, before))
    ensures !LeadsOn(cmd)
  {
    hide LocalOf, Has, NewContainer, ContainerName, Listed, KeptId, StageOf;
  }

  lemma {:induction false} UnservableNext(job: Job, before: Trace, e: Effect)
    requires Allowed(job, before, e) && Unservable(job) && Sourceless(StageOf(job, before))
    ensures Sourceless(StageNext(job, StageOf(job, before), e))
  {
    if e.Ran? {
      UnservableRuns(job, before, e.cmd);
    }
    hide LocalOf, MayRun, MayCall, Unservable, Fatal, HostPort, StageOf;
  }

  lemma {:induction false} TraceIsPlaced(job: Job, trace: Trace)
    requires AllowedTrace(job, trace)
    ensures Placed(trace, LocalOf(trace).pc)
  {
    if trace != [] {
      var n := |trace| - 1;
      AllowedAt(job, trace, n);
      TraceIsPlaced(job, trace[..n]);
      PlacedNext(trace[..n], LocalOf(trace[..n]), trace[n]);
      assert trace == trace[..n] + [trace[n]];
    }
  }

  lemma {:induction false} SuccessIsServed(job: Job, trace: Trace)
    requires AllowedTrace(job, trace) && Has(trace, SuccessWritten)
    ensures !Unservable(job)
  {
    var i :| 0 <= i < |trace| && Marks(trace[i], SuccessWritten);
    AllowedAt(job, trace, i);
    if Unservable(job) {
      UnservableStage(job, trace[..i]);
    }
  }

  /** Where a run is tells whether it entered the try and how it left it. */
  predicate Places(pc: Pc, entered: bool, ending: Ending) {
    match pc
    case Working => entered && ending.Open?
    case Swapping => entered && ending.Open?
    case Caught(_) => entered && ending.ByThrow?
    case Sweeping => entered && ending.ByThrow?
    case Clearing(_) => entered && !ending.Open?
    case Returned => entered <==> !ending.Open?
    case Rejected => entered <==> !ending.Open?
    case _ => !entered && ending.Open?
  }

  ghost predicate EndsRight(job: Job, trace: Trace) {
    && Places(LocalOf(trace).pc, Entered(trace), EndingOf(trace))
    && (EndingOf(trace).ByReturn? ==>
          !StageOf(job, trace).Doomed? && !Unservable(job) && Has(trace, SuccessWritten))
    && (EndingOf(trace).ByThrow? ==> StageOf(job, trace).Doomed? || Unservable(job))
  }

  /** After the try nothing fatal can happen any more. */
  lemma {:induction false} StageSettles(job: Job, before: Trace, e: Effect)
    requires Allowed(job, before, e) && !InTry(LocalOf(before).pc)
    ensures StageNext(job, StageOf(job, before), e) == StageOf(job, before)
  {
  }

  lemma {:induction false} PlacesNext(l: Local, op: Op, entered: bool, ending: Ending)
    requires LocalNext(l, op).Some? && Places(l.pc, entered, ending)
    ensures Places(LocalNext(l, op).value.pc, entered || op == Enter,
                   if op == Return then ByReturn else if op.Throw? then ByThrow else ending)
  {
  }

  lemma {:induction false} EndingSnoc(trace: Trace, e: Effect)
    ensures Entered(trace + [e]) == (Entered(trace) || e == Step(Enter))
    ensures EndingOf(trace + [e])
         == if e == Step(Return) then ByReturn else if e.Step? && e.op.Throw? then ByThrow else EndingOf(trace)
  {
    assert (trace + [e])[..|trace|] == trace;
  }

  lemma {:induction false} EndsRightNext(job: Job, before: Trace, e: Effect)
    requires EndsRight(job, before) && Allowed(job, before, e) && Placed(before, LocalOf(before).pc)
    requires Has(before, SuccessWritten) ==> !Unservable(job)
    ensures EndsRight(job, before + [e])
  {
    hide StageNext, Unservable, MaySucceed, SweptOnce, MayRun, Has, StageOf, LocalOf, LoginOf, EndingOf, Entered,
      AllowedTrace;
    Snoc(job, before, e);
    EndingSnoc(before, e);
    if Has(before, SuccessWritten) {
      HasStays(before, before + [e], SuccessWritten);
    }
    if !InTry(LocalOf(before).pc) {
      StageSettles(job, before, e);
    }
    if e.Step? {
      StepKeepsStage(job, StageOf(job, before), e);
      PlacesNext(LocalOf(before), e.op, Entered(before), EndingOf(before));
    }
  }

  lemma {:induction false} TryEndsRight(job: Job, trace: Trace)
    requires AllowedTrace(job, trace)
    ensures EndsRight(job, trace)
  {
    if trace != [] {
      hide StageOf, LocalOf, EndingOf, Entered, Allowed, Has, EndsRight;
      var n := |trace| - 1;
      var before, e := trace[..n], trace[n];
      AllowedAt(job, trace, n);
      TryEndsRight(job, before);
      TraceIsPlaced(job, before);
      if Has(before, SuccessWritten) {
        SuccessIsServed(job, before);
      }
      EndsRightNext(job, before, e);
      assert trace == before + [e];
    }
  }

  lemma {:induction false} StepKeepsStage(job: Job, stage: Stage, e: Effect)
    requires e.Step?
    ensures StageNext(job, stage, e) == stage
  {
  }

  /** Main result: a run that entered its try and is over threw exactly when its settings are not served or one of the
      environment's answers was fatal, anywhere in the run; otherwise it wrote its success and returned. */
  lemma {:induction false} ThrowsExactlyForCause(job: Job, trace: Trace)
    requires AllowedTrace(job, trace) && Entered(trace) && (LocalOf(trace).pc.Returned? || LocalOf(trace).pc.Rejected?)
    ensures EndingOf(trace).ByThrow? <==> Unservable(job) || SomethingFatal(job, trace)
    ensures EndingOf(trace).ByReturn? <==> !Unservable(job) && !SomethingFatal(job, trace)
    ensures EndingOf(trace).ByReturn? ==> Has(trace, SuccessWritten)
  {
    hide Fatal, Unservable, Has, AllowedTrace;
    TryEndsRight(job, trace);
    DoomIsFatal(job, trace);
  }

  /** A step is failed only after a fatal answer, and then right after its pre-deploy hook failed or the new container
      was discarded, or in a compose deploy. */
  lemma {:induction false} StepsFailForCause(job: Job, trace: Trace, k: nat, step: nat)
    requires AllowedTrace(job, trace) && k < |trace| && trace[k] == Step(Finish(step, false))
    ensures k > 0 && SomethingFatal(job, trace[..k])
    ensures TakesCompose(job) || (trace[k - 1].Ran? && trace[k - 1].cmd.PreHook?)
            || IsExit(trace[k - 1], RemoveContainer(NewContainer(job)))
  {
    hide Fatal, StageNext, StageOf, NewContainer, TakesCompose, LocalOf, LocalNext, AllowedTrace;
    AllowedAt(job, trace, k);
    DoomIsFatal(job, trace[..k]);
    assert trace[..k][k - 1] == trace[k - 1];
  }

  /** A run is recorded as cancelled exactly when a cancel had been requested by then, or the first fatal effect is a
      clone or build that the run's signal killed. */
  lemma {:induction false} CancelledExactly(job: Job, trace: Trace, k: nat)
    requires AllowedTrace(job, trace) && k < |trace| && trace[k].Step? && trace[k].op.Throw?
    ensures trace[k].op.cancelled
       <==> job.env.cancelRequested(trace[..k]) || exists i :: FirstFatal(job, trace[..k], i) && IsAbort(trace[i])
    ensures !LoginOf(trace[..k])
  {
    var before := trace[..k];
    AllowedAt(job, trace, k);
    DoomIsFatal(job, before);
    hide Fatal, StageNext, IsAbort, FirstFatal, StageOf;
    if StageOf(job, before).Doomed? {
      var i := LeastFatal(job, before);
      FirstFatalDooms(job, before, i);
      assert trace[i] == before[i];
    }
    forall i | FirstFatal(job, before, i) ensures 0 <= i < k && StageOf(job, before) == Doomed(IsAbort(trace[i])) {
      FirstFatalDooms(job, before, i);
      assert trace[i] == before[i];
    }
  }

  lemma {:induction false} LeastFatal(job: Job, trace: Trace) returns (i: int)
    requires SomethingFatal(job, trace)
    ensures 0 <= i < |trace| && FirstFatal(job, trace, i)
  {
    var j :| FatalAt(job, trace, j);
    i := 0;
    while !FatalAt(job, trace, i)
      invariant 0 <= i <= j && forall k :: 0 <= k < i ==> !FatalAt(job, trace, k)
      decreases j - i
    {
      i := i + 1;
    }
  }

  // ---- the containers ----

  /** A container: its full id, its name, and the value of the app's label if it carries one. */
  datatype Container = Container(id: string, name: string, appId: Option<string>)

  type Containers = set<Container>

  /** What `docker rm` takes the key for. (An id may also be given by a prefix; the keys used here are full
      ids or names with a dash.) */
  predicate Matches(c: Container, key: string) {
    c.id == key || c.name == key
  }

  /** A new container, under an id of its own. */
  ghost predicate Created(cs: Containers, name: string, appId: string, c: Container, next: Containers) {
    c.name == name && c.appId == Some(appId) && !HasId(cs, c.id) && next == cs + {c}
  }

  ghost predicate HasId(cs: Containers, id: string) {
    exists c :: c in cs && c.id == id
  }

  /** What an effect may do to the containers. A failing rm or run may have had its effect or not, a
      working run creates one container; compose containers carry no app label. */
  ghost predicate Changes(cs: Containers, e: Effect, next: Containers) {
    if !e.Ran? then next == cs
    else
      match e.cmd
      case RemoveContainer(key) =>
        && next <= cs && (forall c :: c in cs && !Matches(c, key) ==> c in next)
        && (IsExitZero(e) ==> forall c :: c in next ==> !Matches(c, key))
      case RunContainer(name, appId, _) =>
        (next == cs && !IsExitZero(e)) || exists c :: Created(cs, name, appId, c, next)
      case ComposeUp(_) => forall c: Container :: c.appId.Some? ==> (c in cs <==> c in next)
      case _ => next == cs
  }

  /** The containers before and after each effect, when nobody else changes them. */
  ghost predicate History(states: seq<Containers>, trace: Trace) {
    |states| == |trace| + 1 && forall i :: 0 <= i < |trace| ==> Changes(states[i], trace[i], states[i + 1])
  }

  /** The gate: a container other than the new one is removed only after the success was written, and that
      was written only after the new one ran, answered a probe, and passed its hooks (or compose came up). */
  lemma {:induction false} RemovedOnlyBehindTheGate(job: Job, trace: Trace, k: nat)
    requires AllowedTrace(job, trace) && k < |trace| && trace[k].Ran? && trace[k].cmd.RemoveContainer?
    requires trace[k].cmd.key != NewContainer(job)
    ensures job.opts.preview.None? && Listed(trace[..k], job.app.id, trace[k].cmd.key)
    ensures exists s :: 0 <= s < k && trace[s] == Step(Succeed) && MaySucceed(job, StageOf(job, trace[..s]))
  {
    hide LocalOf, StageOf, KeptId, LoginOf, IsSweep, Listed, MaySucceed, NewContainer, StartTag, AllowedTrace;
    hide LocalNext, CausesFailure, SweptOnce, Unservable, Fatal;
    AllowedAt(job, trace, k);
    var before := trace[..k];
    var s :| 0 <= s < |before| && Marks(before[s], SuccessWritten);
    AllowedAt(job, trace, s);
    assert trace[s] == before[s];
  }

  /** Where a trace shows what a success rests on: the new container run (or compose brought up), the port it got,
      the answered probe, and the post-deploy hook. */
  datatype Evidence = Evidence(run: int, mapped: int, port: nat, probe: int, hook: int)

  /** The new container was started, and no container was touched since. */
  ghost predicate StartedAt(job: Job, trace: Trace, w: Evidence) {
    && 0 <= w.run < |trace| && IsExitZero(trace[w.run]) && Calm(trace, w.run + 1, |trace|)
    && var cmd := trace[w.run].cmd; cmd.RunContainer? && cmd.name == NewContainer(job) && cmd.appId == job.app.id
  }

  ghost predicate MappedAt(job: Job, trace: Trace, w: Evidence) {
    && StartedAt(job, trace, w) && w.run < w.mapped < |trace| && IsExit(trace[w.mapped], Port(NewContainer(job)))
    && w.port > 0 && w.port == PortNumber(HostPort(trace[w.mapped].answer.exit))
  }

  ghost predicate ProbedAt(job: Job, trace: Trace, w: Evidence) {
    MappedAt(job, trace, w) && w.mapped < w.probe < |trace| && trace[w.probe] == Probed(Host(job), w.port, true)
  }

  ghost predicate HookedAt(job: Job, trace: Trace, w: Evidence) {
    && ProbedAt(job, trace, w) && w.probe < w.hook < |trace| && IsExitZero(trace[w.hook])
    && trace[w.hook].cmd == PostHook(NewContainer(job), job.app.postDeploy)
  }

  ghost predicate ComposeAt(job: Job, trace: Trace, w: Evidence) {
    && 0 <= w.run < |trace| && IsExitZero(trace[w.run]) && trace[w.run].cmd == ComposeUp(ContainerName(job.app.id))
  }

  /** No answer since named a port for the project. */
  ghost predicate Unrouted(trace: Trace, run: int) {
    forall i :: 0 <= run < i < |trace| && NamesPort(trace[i]) ==> RoutedPort(trace[i].answer.exit) == ""
  }

  ghost predicate RoutedAt(job: Job, trace: Trace, w: Evidence) {
    && ComposeAt(job, trace, w) && w.run < w.mapped < |trace| && NamesPort(trace[w.mapped])
    && RoutedPort(trace[w.mapped].answer.exit) != "" && w.port == PortNumber(RoutedPort(trace[w.mapped].answer.exit))
  }

  ghost predicate AnsweredAt(job: Job, trace: Trace, w: Evidence) {
    RoutedAt(job, trace, w) && w.mapped < w.probe < |trace| && trace[w.probe] == Probed(LOOPBACK, w.port, true)
  }

  /** What the stage of a trace rests on. */
  ghost predicate Earned(job: Job, trace: Trace, stage: Stage, w: Evidence) {
    match stage
    case Up => StartedAt(job, trace, w)
    case Mapped(port, _) => MappedAt(job, trace, w) && w.port == port
    case Healthy => ProbedAt(job, trace, w)
    case Hooked => HookedAt(job, trace, w)
    case ComposeIsUp => ComposeAt(job, trace, w) && Unrouted(trace, w.run)
    case ComposeRouted(port, _) => RoutedAt(job, trace, w) && w.port == port
    case ComposeHealthy => AnsweredAt(job, trace, w)
    case _ => true
  }

  lemma {:induction false} EarnedLonger(job: Job, trace: Trace, e: Effect, stage: Stage, w: Evidence)
    requires Earned(job, trace, stage, w) && (IsCompose(stage) || !Touches(e))
    requires stage.ComposeIsUp? && NamesPort(e) ==> RoutedPort(e.answer.exit) == ""
    ensures Earned(job, trace + [e], stage, w)
  {
    hide NewContainer, RoutedPort, HostPort, PortNumber, ContainerName, Host;
    assert forall i :: 0 <= i < |trace| ==> (trace + [e])[i] == trace[i];
    assert (trace + [e])[|trace|] == e;
  }

  lemma {:induction false} RoutedLonger(job: Job, trace: Trace, e: Effect, stage: Stage, w: Evidence)
    requires Earned(job, trace, stage, w) && IsCompose(stage)
    ensures ComposeAt(job, trace + [e], w) && (!stage.ComposeIsUp? ==> Earned(job, trace + [e], stage, w))
  {
    hide NewContainer, RoutedPort, HostPort, PortNumber, ContainerName, Host;
    assert forall i :: 0 <= i < |trace| ==> (trace + [e])[i] == trace[i];
  }

  predicate IsUp(stage: Stage) {
    stage.Up? || stage.Mapped? || stage.Healthy? || stage.Hooked?
  }

  /** Once the new container is started, none is touched until the success is written or the run is doomed. */
  lemma {:induction false} UntouchedOnceUp(job: Job, trace: Trace, e: Effect)
    requires Allowed(job, trace, e) && !Has(trace, SuccessWritten) && IsUp(StageOf(job, trace))
    ensures !Touches(e)
  {
  }

  lemma {:induction false} StaysUnrouted(job: Job, stage: Stage, e: Effect)
    requires stage.ComposeIsUp? && StageNext(job, stage, e) == stage && NamesPort(e)
    ensures RoutedPort(e.answer.exit) == ""
  {
  }

  lemma {:induction false} EarnedSame(job: Job, trace: Trace, e: Effect, w: Evidence)
    requires Earned(job, trace, StageOf(job, trace), w) && Allowed(job, trace, e) && !Has(trace, SuccessWritten)
    requires StageNext(job, StageOf(job, trace), e) == StageOf(job, trace)
    ensures Earned(job, trace + [e], StageOf(job, trace), w)
  {
    hide Allowed, Has, StageNext, StartedAt, MappedAt, ProbedAt, HookedAt, ComposeAt, Unrouted, RoutedAt, AnsweredAt;
    var stage := StageOf(job, trace);
    if IsUp(stage) {
      UntouchedOnceUp(job, trace, e);
      EarnedLonger(job, trace, e, stage, w);
    } else if IsCompose(stage) {
      if stage.ComposeIsUp? && NamesPort(e) {
        StaysUnrouted(job, stage, e);
      }
      EarnedLonger(job, trace, e, stage, w);
    }
  }

  /** What moved the stage on. */
  predicate Mover(job: Job, stage: Stage, e: Effect, next: Stage) {
    match next
    case Up => IsExitZero(e) && e.cmd.RunContainer? && e.cmd.name == NewContainer(job) && e.cmd.appId == job.app.id
    case ComposeIsUp => IsExitZero(e) && e.cmd == ComposeUp(ContainerName(job.app.id))
    case Mapped(port, tries) =>
      if tries == 0 then
        stage.Up? && port > 0 && IsExit(e, Port(NewContainer(job))) && port == PortNumber(HostPort(e.answer.exit))
      else stage == Mapped(port, tries - 1) && e.Probed?
    case ComposeRouted(port, tries) =>
      if tries == 0 then
        stage.ComposeIsUp? && NamesPort(e) && RoutedPort(e.answer.exit) != ""
          && port == PortNumber(RoutedPort(e.answer.exit))
      else stage == ComposeRouted(port, tries - 1) && e.Probed?
    case Healthy => stage.Mapped? && e == Probed(Host(job), stage.port, true)
    case ComposeHealthy => stage.ComposeRouted? && e == Probed(LOOPBACK, stage.port, true)
    case Hooked => stage.Healthy? && IsExitZero(e) && e.cmd == PostHook(NewContainer(job), job.app.postDeploy)
    case _ => true
  }

  lemma {:induction false} MovedBy(job: Job, trace: Trace, e: Effect, next: Stage)
    requires Allowed(job, trace, e) && next == StageNext(job, StageOf(job, trace), e) != StageOf(job, trace)
    ensures Mover(job, StageOf(job, trace), e, next)
  {
    hide NewContainer, RoutedPort, HostPort, PortNumber, ContainerName, Host, Has, LocalOf, StageOf, StartTag, ReadyTag,
         Listed, KeptId, RightStep, TakesCompose;
  }

  lemma {:induction false} EarnedNext(job: Job, trace: Trace, e: Effect, w: Evidence) returns (v: Evidence)
    requires Earned(job, trace, StageOf(job, trace), w) && Allowed(job, trace, e) && !Has(trace, SuccessWritten)
    ensures Earned(job, trace + [e], StageOf(job, trace + [e]), v)
  {
    hide Allowed, Has, StageOf, StageNext, AllowedTrace, LoginOf, LocalOf;
    var stage, next := StageOf(job, trace), StageNext(job, StageOf(job, trace), e);
    Snoc(job, trace, e);
    if next == stage {
      v := w;
      EarnedSame(job, trace, e, w);
    } else {
      MovedBy(job, trace, e, next);
      v := EarnedByMove(job, trace, stage, e, next, w);
    }
  }

  lemma {:induction false} EarnedByMove(job: Job, trace: Trace, stage: Stage, e: Effect, next: Stage, w: Evidence)
    returns (v: Evidence)
    requires Earned(job, trace, stage, w) && Mover(job, stage, e, next)
    ensures Earned(job, trace + [e], next, v)
  {
    hide NewContainer, RoutedPort, HostPort, PortNumber, ContainerName, Host, Calm, Unrouted;
    var n, longer := |trace|, trace + [e];
    assert longer[n] == e;
    v := w;
    if IsUp(stage) && IsUp(next) && !next.Up? {
      EarnedLonger(job, trace, e, stage, w);
    }
    if IsCompose(stage) && IsCompose(next) && !next.ComposeIsUp? {
      RoutedLonger(job, trace, e, stage, w);
    }
    match next
    case Up =>
      v := w.(run := n);
      NothingAfter(trace, e);
    case ComposeIsUp =>
      v := w.(run := n);
      NothingAfter(trace, e);
    case Mapped(port, tries) => v := if tries == 0 then w.(mapped := n, port := port) else w;
    case Healthy => v := w.(probe := n);
    case Hooked => v := w.(hook := n);
    case ComposeRouted(port, tries) => v := if tries == 0 then w.(mapped := n, port := port) else w;
    case ComposeHealthy => v := w.(probe := n);
    case _ =>
  }

  lemma {:induction false} NothingAfter(trace: Trace, e: Effect)
    ensures Calm(trace + [e], |trace| + 1, |trace| + 1) && Unrouted(trace + [e], |trace|)
  {
  }

  lemma {:induction false} StageIsEarned(job: Job, trace: Trace) returns (w: Evidence)
    requires AllowedTrace(job, trace) && !Has(trace, SuccessWritten)
    ensures Earned(job, trace, StageOf(job, trace), w)
  {
    if trace == [] {
      w := Evidence(0, 0, 0, 0, 0);
    } else {
      var n := |trace| - 1;
      HasEarlier(trace, n, SuccessWritten);
      AllowedAt(job, trace, n);
      w := StageIsEarned(job, trace[..n]);
      w := EarnedNext(job, trace[..n], trace[n], w);
      assert trace == trace[..n] + [trace[n]];
    }
  }

  /** The probe's evidence in terms of what the commands printed: `docker run` exited 0, `docker port` of that very
      container printed a first line ending in a colon and a port, and that port answered, at the worker's address or
      on the loopback. */
  ghost predicate ProbedOutright(job: Job, trace: Trace, w: Evidence) {
    && 0 <= w.run < w.mapped < w.probe < |trace| && IsExitZero(trace[w.run]) && trace[w.run].cmd.RunContainer?
    && IsExit(trace[w.mapped], Port(trace[w.run].cmd.name)) && trace[w.mapped].answer.exit.stdout != []
    && w.port == PortNumber(AfterColon(trace[w.mapped].answer.exit.stdout[0])) && w.port > 0
    && trace[w.probe] == Probed(if job.env.remote then job.env.host else "127.0.0.1", w.port, true)
  }

  /** The same for compose, where the port is what the mapping names and the loopback answered. */
  ghost predicate AnsweredOutright(trace: Trace, w: Evidence) {
    && 0 <= w.run < w.mapped < w.probe < |trace| && IsExitZero(trace[w.run]) && trace[w.run].cmd.ComposeUp?
    && NamesPort(trace[w.mapped]) && trace[w.mapped].answer.exit.stdout != []
    && ParsePortMapping(trace[w.mapped].answer.exit.stdout[0]) != ""
    && w.port == PortNumber(ParsePortMapping(trace[w.mapped].answer.exit.stdout[0]))
    && trace[w.probe] == Probed("127.0.0.1", w.port, true)
  }

  lemma {:induction false} Outright(job: Job, trace: Trace, w: Evidence)
    ensures ProbedAt(job, trace, w) ==> ProbedOutright(job, trace, w)
    ensures AnsweredAt(job, trace, w) ==> AnsweredOutright(trace, w)
  {
    hide NewContainer, ContainerName, Calm;
    assert PortNumber(AfterColon("")) == 0 && ParsePortMapping("") == "";
  }

  /** What stands behind a success write: the new container was started and not touched since, it answered a probe of
      the very port docker mapped for it, and if the app has a post-deploy hook that passed in it afterwards; or a
      compose project came up, and none of its ports was found or the routed one answered. */
  lemma {:induction false} SuccessIsEarned(job: Job, trace: Trace, k: nat) returns (w: Evidence)
    requires AllowedTrace(job, trace) && k < |trace| && trace[k] == Step(Succeed)
    ensures var before := trace[..k];
      if ComposeAt(job, before, w) then Unrouted(before, w.run) || AnsweredAt(job, before, w)
      else ProbedAt(job, before, w) && (job.app.postDeploy != "" ==> HookedAt(job, before, w))
    ensures !ComposeAt(job, trace[..k], w) ==> ProbedOutright(job, trace[..k], w)
    ensures AnsweredAt(job, trace[..k], w) ==> AnsweredOutright(trace[..k], w)
  {
    hide ProbedAt, HookedAt, Unrouted, AnsweredAt, ComposeAt, AllowedTrace, StageOf, Has, ProbedOutright,
      AnsweredOutright;
    SucceedIsAllowed(job, trace, k);
    w := StageIsEarned(job, trace[..k]);
    EarnedShape(job, trace[..k], w);
    Outright(job, trace[..k], w);
  }

  lemma {:induction false} SucceedIsAllowed(job: Job, trace: Trace, k: nat)
    requires AllowedTrace(job, trace) && k < |trace| && trace[k] == Step(Succeed)
    ensures AllowedTrace(job, trace[..k]) && !Has(trace[..k], SuccessWritten)
    ensures MaySucceed(job, StageOf(job, trace[..k]))
  {
    hide MaySucceed, StageOf, Has, AllowedTrace;
    AllowedAt(job, trace, k);
    TraceIsPlaced(job, trace[..k]);
  }

  lemma {:induction false} EarnedShape(job: Job, trace: Trace, w: Evidence)
    ensures ProbedAt(job, trace, w) ==> !ComposeAt(job, trace, w)
    ensures HookedAt(job, trace, w) ==> ProbedAt(job, trace, w)
    ensures ProbedAt(job, trace, w) ==> StartedAt(job, trace, w)
    ensures AnsweredAt(job, trace, w) ==> ComposeAt(job, trace, w)
  {
  }

  lemma {:induction false} NothingOldTouched(job: Job, before: Trace, e: Effect, cs: Containers, next: Containers,
                                             c: Container)
    requires Allowed(job, before, e) && Changes(cs, e, next) && c in cs && !Matches(c, NewContainer(job))
    requires !Has(before, SuccessWritten) || job.opts.preview.Some?
    requires c.appId.Some? || job.opts.preview.Some?
    ensures c in next
  {
  }

  /** Until the success is written, whatever happens, every container that carries an app's label and is not
      under the new name is still there. */
  lemma {:induction false} OldContainersUntouched(job: Job, trace: Trace, states: seq<Containers>, c: Container, i: nat)
    requires AllowedTrace(job, trace) && History(states, trace) && i <= |trace| && !Has(trace[..i], SuccessWritten)
    requires c in states[0] && c.appId.Some? && !Matches(c, NewContainer(job))
    ensures c in states[i]
  {
    if i > 0 {
      if Has(trace[..i - 1], SuccessWritten) {
        HasStays(trace[..i - 1], trace[..i], SuccessWritten);
      }
      OldContainersUntouched(job, trace, states, c, i - 1);
      AllowedAt(job, trace, i - 1);
      NothingOldTouched(job, trace[..i - 1], trace[i - 1], states[i - 1], states[i], c);
    }
  }

  /** The containers of the app's earlier deploys and of its previews, which are under other names, are there until
      the success is written. */
  lemma {:induction false} OldDeploysStand(job: Job, trace: Trace, states: seq<Containers>, c: Container, i: nat,
                                           earlier: string, pr: nat)
    requires AllowedTrace(job, trace) && History(states, trace) && i <= |trace| && !Has(trace[..i], SuccessWritten)
    requires job.opts.preview.None? && c in states[0] && c.appId == Some(job.app.id) && '-' !in c.id
    requires || IsPreviewName(c.name, job.app.id, pr)
             || (IsDeployName(c.name, job.app.id, earlier) && !SameTail(earlier, job.deploymentId))
    ensures c in states[i]
  {
    hide AllowedTrace, Changes, IsPreviewName, IsDeployName, SameTail;
    NewContainerName(job);
    if c.name == NewContainer(job) && IsPreviewName(c.name, job.app.id, pr) {
      PreviewIsNoDeploy(c.name, job.app.id, job.deploymentId, pr);
    } else if c.name == NewContainer(job) {
      DeployNameHasOneTail(c.name, job.app.id, earlier, job.deploymentId);
    }
    OldContainersUntouched(job, trace, states, c, i);
  }

  lemma {:induction false} PreviewLeavesOthers(job: Job, trace: Trace, states: seq<Containers>, c: Container, i: nat)
    requires job.opts.preview.Some? && AllowedTrace(job, trace) && History(states, trace) && i <= |trace|
    requires c in states[0] && !Matches(c, NewContainer(job))
    ensures c in states[i]
  {
    if i > 0 {
      PreviewLeavesOthers(job, trace, states, c, i - 1);
      AllowedAt(job, trace, i - 1);
      NothingOldTouched(job, trace[..i - 1], trace[i - 1], states[i - 1], states[i], c);
    }
  }

  /** A preview leaves every container of another pull request, of whatever app, and every main container of its own
      app, at every point of every run. (Docker's own ids hold no dash.) */
  lemma {:induction false} PreviewTouchesOnlyItsOwn(job: Job, trace: Trace, states: seq<Containers>, c: Container,
                                                    i: nat, appId: string, pr: nat, deploymentId: string)
    requires job.opts.preview.Some? && AllowedTrace(job, trace) && History(states, trace) && i <= |trace|
    requires c in states[0] && '-' !in c.id
    requires || (IsPreviewName(c.name, appId, pr) && (appId != job.app.id || pr != job.opts.preview.value.prNumber))
             || IsDeployName(c.name, job.app.id, deploymentId)
    ensures c in states[i]
  {
    hide AllowedTrace, IsDeployName, IsPreviewName, Changes;
    NewContainerName(job);
    var p := job.opts.preview.value.prNumber;
    if IsPreviewName(c.name, appId, pr) && c.name == NewContainer(job) {
      PreviewNamesDiffer(c.name, appId, pr, job.app.id, p);
    }
    if IsDeployName(c.name, job.app.id, deploymentId) {
      PreviewIsNoDeploy(c.name, job.app.id, deploymentId, p);
    }
    PreviewLeavesOthers(job, trace, states, c, i);
  }

  // ---- what a whole sweep leaves ----

  lemma {:induction false} RemovedAre(ids: seq<string>, keepId: string, id: string)
    ensures id in ToRemove(ids, keepId) <==> id in ids && id != keepId
  {
    if ids != [] {
      var n := |ids| - 1;
      RemovedAre(ids[..n], keepId, id);
      assert ids == ids[..n] + [ids[n]];
    }
  }

  /** No container is named like another's id. */
  ghost predicate NamesAreNoIds(cs: Containers) {
    forall c, d :: c in cs && d in cs ==> c.name != d.id
  }

  /** Removing keys that are ids removes exactly the containers with those ids. */
  lemma {:induction false} RemovalsLeave(states: seq<Containers>, removals: Trace, keys: seq<string>, c: Container)
    requires History(states, removals) && Removes(removals, keys) && NamesAreNoIds(states[0])
    requires forall i :: 0 <= i < |removals| ==> IsExitZero(removals[i])
    requires forall key :: key in keys ==> HasId(states[0], key)
    ensures |states| == |removals| + 1
    ensures c in states[|removals|] <==> c in states[0] && c.id !in keys
  {
    if keys != [] {
      var n := |keys| - 1;
      var before, init := states[..n + 1], removals[..n];
      assert Removes(init, keys[..n]);
      assert History(before, init) && before[0] == states[0];
      forall key | key in keys[..n] ensures HasId(before[0], key) {
        assert key in keys;
      }
      RemovalsLeave(before, init, keys[..n], c);
      assert Changes(states[n], removals[n], states[n + 1]);
      assert keys[n] in keys;
      assert keys == keys[..n] + [keys[n]];
    }
  }

  /** Sweeping: if docker listed exactly the app's labelled containers and every removal worked, exactly those
      of them are left whose id is what inspect printed. */
  lemma {:induction false} SweepLeaves(appId: string, keep: string, sweep: Trace, states: seq<Containers>, c: Container)
    requires keep != "" && IsSweep(appId, keep, sweep) && History(states, sweep) && NamesAreNoIds(states[0])
    requires forall i :: 2 <= i < |sweep| ==> IsExitZero(sweep[i])
    requires forall d :: d in states[0] && d.appId == Some(appId) ==> d.id in Ids(sweep[0].answer.exit.stdout)
    requires forall id :: id in Ids(sweep[0].answer.exit.stdout) ==> HasId(states[0], id)
    requires c.appId == Some(appId)
    ensures var printed := sweep[1].answer.exit.stdout;
      c in states[|sweep|] <==> c in states[0] && c.id == if printed == [] then "" else printed[0]
  {
    var ids, keepId := Ids(sweep[0].answer.exit.stdout), FirstLine(sweep[1].answer.exit.stdout);
    assert Changes(states[0], sweep[0], states[1]) && Changes(states[1], sweep[1], states[2]);
    forall key | key in ToRemove(ids, keepId) ensures key in ids {
      RemovedAre(ids, keepId, key);
    }
    var rest, after := sweep[2..], states[2..];
    forall i | 0 <= i < |rest| ensures Changes(after[i], rest[i], after[i + 1]) && IsExitZero(rest[i]) {
      assert rest[i] == sweep[i + 2] && Changes(states[i + 2], sweep[i + 2], states[i + 3]);
    }
    RemovalsLeave(after, rest, ToRemove(ids, keepId), c);
    RemovedAre(ids, keepId, c.id);
  }

  /** A complete sweep keeps the new container, and it alone, exactly when inspect printed its id; if inspect
      failed (it prints nothing), the sweep removes the new container too. */
  lemma {:induction false} SweepKeepsTheNew(appId: string, keep: string, sweep: Trace, states: seq<Containers>,
                                            newest: Container)
    requires keep != "" && IsSweep(appId, keep, sweep) && History(states, sweep) && NamesAreNoIds(states[0])
    requires forall i :: 2 <= i < |sweep| ==> IsExitZero(sweep[i])
    requires forall d :: d in states[0] && d.appId == Some(appId) ==> d.id in Ids(sweep[0].answer.exit.stdout)
    requires forall id :: id in Ids(sweep[0].answer.exit.stdout) ==> HasId(states[0], id)
    requires newest in states[0] && newest.appId == Some(appId)
    requires forall d :: d in states[0] && d.id == newest.id ==> d == newest
    ensures (forall c: Container :: c.appId == Some(appId) ==> (c in states[|sweep|] <==> c == newest))
       <==> newest.id == if sweep[1].answer.exit.stdout == [] then "" else sweep[1].answer.exit.stdout[0]
  {
    forall c: Container | c.appId == Some(appId)
      ensures var printed := sweep[1].answer.exit.stdout;
        c in states[|sweep|] <==> c in states[0] && c.id == if printed == [] then "" else printed[0]
    {
      SweepLeaves(appId, keep, sweep, states, c);
    }
  }

  // ---- a whole deploy ----

  lemma {:induction false} CalmKeeps(trace: Trace, states: seq<Containers>, i: nat, j: nat)
    requires History(states, trace) && i <= j <= |trace| && Calm(trace, i, j)
    ensures states[j] == states[i]
    decreases j - i
  {
    if i < j {
      assert Changes(states[i], trace[i], states[i + 1]) && !Touches(trace[i]);
      CalmKeeps(trace, states, i + 1, j);
    }
  }

  lemma {:induction false} SingleIsNoCompose(job: Job, trace: Trace)
    requires AllowedTrace(job, trace) && !TakesCompose(job)
    ensures !IsCompose(StageOf(job, trace))
  {
    if trace != [] {
      hide StageNext, TakesCompose;
      var n := |trace| - 1;
      AllowedAt(job, trace, n);
      SingleIsNoCompose(job, trace[..n]);
      if StageOf(job, trace) != StageOf(job, trace[..n]) {
        MovedBy(job, trace[..n], trace[n], StageOf(job, trace));
      }
    }
  }

  /** A single-container run that returned from its try swept once after its success write, and touched nothing before
      or after. */
  lemma {:induction false} ReturnedRunSweptOnce(job: Job, trace: Trace) returns (s: int, x: int, y: int)
    requires AllowedTrace(job, trace) && EndingOf(trace).ByReturn? && job.opts.preview.None? && !TakesCompose(job)
    ensures SweptBetween(job, trace, s, x, y)
  {
    hide Fatal, StageNext, StageOf, IsSweep, MayRun, LocalOf, SweptBetween;
    var n := |trace| - 1;
    var before := trace[..n];
    AllowedAt(job, trace, n);
    TryEndsRight(job, before);
    if trace[n] == Step(Return) {
      SingleIsNoCompose(job, before);
      s, x, y :| SweptBetween(job, before, s, x, y);
    } else {
      s, x, y := ReturnedRunSweptOnce(job, before);
      CalmAfterTry(job, before, trace[n]);
    }
    SweptLonger(job, before, trace, s, x, y);
  }

  lemma {:induction false} CalmAfterTry(job: Job, before: Trace, e: Effect)
    requires Allowed(job, before, e) && EndsRight(job, before) && !EndingOf(before).Open?
    ensures !Touches(e)
  {
    hide EndingOf, StageOf, Entered, LocalOf;
  }

  lemma {:induction false} CalmStays(before: Trace, trace: Trace, i: int, j: int)
    requires before <= trace && j <= |before| && Calm(before, i, j)
    ensures Calm(trace, i, j)
  {
    hide Touches;
    forall k | i <= k < j && 0 <= k < |trace| ensures !Touches(trace[k]) {
      assert trace[k] == before[k];
    }
  }

  lemma {:induction false} CalmOneMore(trace: Trace, i: int, n: nat)
    requires n < |trace| && Calm(trace, i, n) && !Touches(trace[n])
    ensures Calm(trace, i, n + 1)
  {
  }

  lemma {:induction false} SweptLonger(job: Job, before: Trace, trace: Trace, s: int, x: int, y: int)
    requires SweptBetween(job, before, s, x, y) && |trace| == |before| + 1 && before <= trace
    requires !Touches(trace[|before|])
    ensures SweptBetween(job, trace, s, x, y)
  {
    hide IsSweep, Touches, Calm;
    var n := |before|;
    assert trace[x..y] == before[x..y];
    CalmStays(before, trace, s + 1, x);
    CalmStays(before, trace, y, n);
    CalmOneMore(trace, y, n);
  }

  /** Docker listed exactly the app's labelled containers to the sweep, and every removal worked. */
  ghost predicate SweepWorked(appId: string, sweep: Trace, cs: Containers) {
    && sweep != [] && IsExit(sweep[0], ListLabelled(appId)) && NamesAreNoIds(cs)
    && (forall d :: d in cs && d.appId == Some(appId) ==> d.id in Ids(sweep[0].answer.exit.stdout))
    && (forall id :: id in Ids(sweep[0].answer.exit.stdout) ==> HasId(cs, id))
    && forall i :: 2 <= i < |sweep| ==> IsExitZero(sweep[i])
  }

  /** From the start of the new container to the sweep nothing else happened to the containers. */
  lemma {:induction false} UnchangedUntilSweep(job: Job, trace: Trace, states: seq<Containers>, s: int, x: int,
                                               y: int, w: Evidence)
    requires History(states, trace) && SweptBetween(job, trace, s, x, y) && StartedAt(job, trace[..s], w)
    ensures w.run + 1 <= s && states[w.run + 1] == states[x]
  {
    hide IsSweep, Touches, Changes;
    assert !Touches(trace[s]) by {
      NoStepTouches(trace[s]);
    }
    forall k | w.run + 1 <= k < x ensures !Touches(trace[k]) {
      if k < s {
        assert trace[..s][k] == trace[k];
      }
    }
    CalmKeeps(trace, states, w.run + 1, x);
  }

  lemma {:induction false} NoStepTouches(e: Effect)
    requires e.Step?
    ensures !Touches(e)
  {
  }

  /** Main result: a single-container deploy whose sweep worked leaves, of the app's labelled containers, exactly the
      one it started itself, if and only if inspect printed that one's id. */
  lemma {:induction false} DeployLeavesTheNew(job: Job, trace: Trace, states: seq<Containers>, s: int, x: int, y: int)
    returns (w: Evidence, newest: Container)
    requires AllowedTrace(job, trace) && !TakesCompose(job) && History(states, trace)
    requires SweptBetween(job, trace, s, x, y) && SweepWorked(job.app.id, trace[x..y], states[x])
    ensures ProbedAt(job, trace[..s], w)
    ensures Created(states[w.run], NewContainer(job), job.app.id, newest, states[w.run + 1])
    ensures x + 1 < y && IsExit(trace[x + 1], InspectId(NewContainer(job)))
    ensures (forall c: Container :: c.appId == Some(job.app.id) ==> (c in states[|trace|] <==> c == newest))
       <==> newest.id == if trace[x + 1].answer.exit.stdout == [] then "" else trace[x + 1].answer.exit.stdout[0]
  {
    hide AllowedTrace, TakesCompose, IsSweep, SweepWorked, ProbedAt, Created, NewContainer, Calm, Changes;
    w := StartedBefore(job, trace, s);
    newest := StartedOne(job, trace, states, s, w);
    UnchangedUntilSweep(job, trace, states, s, x, y, w);
    SweepLeavesTheNew(job, trace, states, x, y, states[w.run], newest);
  }

  lemma {:induction false} StartedBefore(job: Job, trace: Trace, s: int) returns (w: Evidence)
    requires AllowedTrace(job, trace) && !TakesCompose(job) && 0 <= s < |trace| && trace[s] == Step(Succeed)
    ensures ProbedAt(job, trace[..s], w) && StartedAt(job, trace[..s], w)
  {
    hide ProbedAt, HookedAt, StartedAt, TakesCompose, AllowedTrace, StageOf, Has;
    SucceedIsAllowed(job, trace, s);
    SingleIsNoCompose(job, trace[..s]);
    w := StageIsEarned(job, trace[..s]);
    EarnedShape(job, trace[..s], w);
  }

  lemma {:induction false} SweepLeavesTheNew(job: Job, trace: Trace, states: seq<Containers>, x: nat, y: nat,
                                             earlier: Containers, newest: Container)
    requires History(states, trace) && x <= y <= |trace| && Calm(trace, y, |trace|)
    requires IsSweep(job.app.id, NewContainer(job), trace[x..y]) && SweepWorked(job.app.id, trace[x..y], states[x])
    requires Created(earlier, NewContainer(job), job.app.id, newest, states[x])
    ensures x + 1 < y && IsExit(trace[x + 1], InspectId(NewContainer(job)))
    ensures (forall c: Container :: c.appId == Some(job.app.id) ==> (c in states[|trace|] <==> c == newest))
       <==> newest.id == if trace[x + 1].answer.exit.stdout == [] then "" else trace[x + 1].answer.exit.stdout[0]
  {
    hide Changes, NewContainer, Removes;
    var sweep, during := trace[x..y], states[x..y + 1];
    NewContainerIsNamed(job);
    CalmKeeps(trace, states, y, |trace|);
    SweepHistory(trace, states, x, y);
    assert sweep[1] == trace[x + 1] && during[0] == states[x] && during[|sweep|] == states[y];
    SweepKeepsTheNew(job.app.id, NewContainer(job), sweep, during, newest);
  }

  lemma {:induction false} SweepHistory(trace: Trace, states: seq<Containers>, x: nat, y: nat)
    requires History(states, trace) && x <= y <= |trace|
    ensures History(states[x..y + 1], trace[x..y])
  {
    hide Changes;
    forall i | 0 <= i < y - x ensures Changes(states[x..y + 1][i], trace[x..y][i], states[x..y + 1][i + 1]) {
      assert Changes(states[x + i], trace[x + i], states[x + i + 1]);
    }
  }

  lemma {:induction false} StartedOne(job: Job, trace: Trace, states: seq<Containers>, s: nat, w: Evidence)
    returns (newest: Container)
    requires History(states, trace) && s <= |trace| && StartedAt(job, trace[..s], w)
    ensures Created(states[w.run], NewContainer(job), job.app.id, newest, states[w.run + 1])
  {
    hide NewContainer, Created, Calm;
    assert Changes(states[w.run], trace[w.run], states[w.run + 1]) && trace[..s][w.run] == trace[w.run];
    newest :| Created(states[w.run], NewContainer(job), job.app.id, newest, states[w.run + 1]);
  }
}
