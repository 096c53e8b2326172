/** The ZeroTier configuration protocol (adapter/outbound/zerotier.go) as a state machine. Node callbacks, the
    configuration worker, on-demand retries, device failures, start, identity recovery and Close interleave;
    one action is one critical section or one call into a stack, link or runtime. */
module ZeroTierProtocol {
  import opened Options
  import opened ZeroTierFields

  /** What the user configured, with the MTU limits of the ZeroTier library as parameters. */
  datatype Settings = Settings(
    network: nat, mtu: nat, defaultMTU: nat, minMTU: nat, maxMTU: nat,
    configuredIdentity: bool, remoteDNS: bool, localDNS: bool)

  function EffectiveMTU(o: Settings, c: Config): nat {
    var mtu := if c.mtu == 0 then o.defaultMTU
               else if c.mtu < o.minMTU then o.minMTU
               else if c.mtu > o.maxMTU then o.maxMTU
               else c.mtu;
    if o.mtu != 0 && o.mtu < mtu then o.mtu else mtu
  }

  /** What the IP link is given: the configuration at its effective MTU. */
  function LinkConfig(o: Settings, c: Config): Config {
    c.(mtu := EffectiveMTU(o, c))
  }

  function ResolverFor(o: Settings, c: Config): Option<Config> {
    if o.remoteDNS && (o.localDNS || c.dns != []) then Some(c) else None
  }

  // ----- where the threads stand -----

  datatype Caller = Worker | Retrier

  /** The locals of one applyNetworkConfig. */
  datatype Work = Work(rt: nat, oldDevice: Option<Stack>, oldConfig: Config, device: Stack, replace: bool)

  datatype Phase =
    | Entered                                                            // operationMu taken
    | Snapped(rt: nat, oldDevice: Option<Stack>, oldConfig: Config)      // first check passed
    | Made(work: Work)                                                   // stack created or kept
    | Confirmed(work: Work)                                              // context still alive
    | Rechecked(work: Work)                                              // second check passed
    | Linked(work: Work)                                                 // IP link mutated
    | Stale(work: Work)                                                  // last check failed: roll back
    | Replacing(replaced: Option<Stack>)                                 // published; old stack still to close

  /** The holder of the write lock operationMu. */
  datatype Operation =
    | Free
    | Applying(caller: Caller, snap: Snapshot, phase: Phase)
    | Starting(recovering: bool)                    // startLocked, before publication
    | Started(rt: nat, recovering: bool)            // runtime published, node not yet joined
    | StartFailed(rt: nat, recovering: bool)        // runtime withdrawn, still to close
    | Reporting                                     // failed restart to be reported by recovery
    | Recovering(source: nat)
    | Detaching(rt: nat, device: Option<Stack>)     // recovery detached them, still to close

  datatype WorkerState = Idle | Woken | Holding(snap: Snapshot) | Busy(snap: Snapshot) | Failing(snap: Snapshot, err: Failure)

  datatype RetryState =
    | NoRetry
    | Wanting(snap: Snapshot)
    | Trying(snap: Snapshot)
    | Complaining(snap: Snapshot, err: Failure)
    | Refreshing(snap: Snapshot)
    | Ending

  datatype Closer = NoCloser | Closing(rt: Option<nat>, device: Option<Stack>)

  /** What lies outside stateMu: the runtimes with their IP links, the stacks, and a record of the run. */
  datatype World = World(
    links: map<nat, Config>,            // what each runtime's IP link holds
    linkTrusted: bool,                  // no failed rollback since the last publication
    nextRuntime: nat,
    nextStack: nat,
    closedRuntimes: multiset<nat>,
    closedStacks: multiset<nat>,        // one entry per hand-over to Close
    accepted: Option<nat>,              // the runtime whose node delivered latestConfig
    consumed: seq<nat>,                 // generations whose snapshot was published
    parked: set<nat>)                   // state channels that waiters are blocked on

  datatype State = State(
    alive: bool,                        // z.ctx not cancelled
    closed: bool,
    background: bool,                   // the worker loop runs
    op: Operation,
    f: Fields,
    token: bool,                        // configCh holds its one wake-up
    signals: nat,                       // enqueuers between storing and signalling
    worker: WorkerState,
    retry: RetryState,
    closer: Closer,                     // the Close call that got through
    world: World)

  function Boot(): State {
    State(true, false, false, Free, Initial(), false, 0, Idle, NoRetry, NoCloser,
          World(map[], true, 0, 0, multiset{}, multiset{}, None, [], {}))
  }

  // ----- actions -----

  datatype Action =
    | Callback(callback: CallbackAction)
    | Loop(loop: WorkerAction)
    | Retry(retry: RetryAction)
    | Apply(apply: ApplyAction)
    | Launch(launch: LaunchAction)
    | Shut(shut: ShutAction)

  datatype CallbackAction =
    | Store(source: nat, config: Config)
    | Signal
    | NetworkFailed(source: nat, err: Option<Failure>, authURL: Option<nat>)
    | DeviceFailed(device: nat, cause: Failure)
    | Park

  datatype WorkerAction = Wake | Take | Record

  datatype RetryAction = Begin | Complain | Refresh(err: Option<Failure>) | End

  datatype ApplyAction =
    | Lock(caller: Caller)
    | Check(resolverErr: Option<Failure>)
    | Make(createErr: Option<Failure>, bootErr: Option<Failure>)
    | Confirm
    | Recheck
    | MutateLink(linkErr: Option<Failure>)
    | Publish
    | Rollback(ok: bool)
    | Replace

  datatype LaunchAction =
    | EnterStart
    | AbortStart
    | PublishRuntime
    | WithdrawRuntime
    | CloseWithdrawn
    | Report(startErr: Failure)
    | FinishStart

  datatype ShutAction =
    | EnterRecovery(source: nat)
    | Detach(addressMatches: bool)
    | CloseDetached
    | Cancel
    | DetachAll
    | CloseAll

  function CloseStack(w: World, device: Option<Stack>): World {
    if device.Some? then w.(closedStacks := w.closedStacks + multiset{device.value.id}) else w
  }

  function CloseRuntime(w: World, rt: Option<nat>): World {
    if rt.Some? then w.(closedRuntimes := w.closedRuntimes + multiset{rt.value}) else w
  }

  /** zeroTierRuntime.close */
  function CloseBoth(w: World, rt: Option<nat>, device: Option<Stack>): World {
    CloseRuntime(CloseStack(w, device), rt)
  }

  // ----- node callbacks, device failures and waiting dialers -----

  function DoCallback(o: Settings, s: State, a: CallbackAction): State
  {
    match a
    case Store(source, config) =>
      // the node only reports the joined network
      if s.alive && s.f.runtime == Some(source) && config.network == o.network then
        s.(f := Stored(s.f, config), signals := s.signals + 1, world := s.world.(accepted := Some(source)))
      else s
    case Signal =>
      if s.signals > 0 then s.(signals := s.signals - 1, token := true) else s
    case NetworkFailed(source, err, authURL) =>
      if s.alive && s.f.runtime == Some(source) then Invalidate(s, err, authURL) else s
    case DeviceFailed(id, cause) =>
      if s.alive && s.f.tunDevice.Some? && s.f.tunDevice.value.id == id then
        s.(f := Broken(s.f, cause), world := CloseStack(s.world, s.f.tunDevice))
      else s
    case Park =>
      if s.f.tunDevice.None? && s.f.networkErr.None? then s.(world := s.world.(parked := s.world.parked + {s.f.notifications})) else s
  }

  /** invalidateNetwork as all its callers use it: without keeping the latest configuration. */
  function Invalidate(s: State, err: Option<Failure>, authURL: Option<nat>): State {
    s.(f := Invalidated(s.f, err, authURL, false), world := CloseStack(s.world, s.f.tunDevice))
  }

  // ----- the configuration worker -----

  function DoWorker(s: State, a: WorkerAction): State
  {
    match a
    case Wake =>
      if s.background && s.worker.Idle? && s.token then s.(worker := Woken, token := false) else s
    case Take =>
      if s.worker.Woken? then s.(worker := if s.f.haveLatestConfig then Holding(Snap(s.f)) else Idle) else s
    case Record =>
      if s.worker.Failing? then
        var recorded := s.alive && Current(s.f, s.worker.snap.(have := true));
        s.(worker := Idle, f := if recorded then Failed(s.f, Some(s.worker.err), s.f.authURL, true) else s.f)
      else s
  }

  // ----- the on-demand retry -----

  function DoRetry(s: State, a: RetryAction): State
  {
    match a
    case Begin =>
      if s.alive && WantsRetry(s.f) then
        s.(f := RetryBegun(s.f),
           retry := if s.f.retryLatestConfig && s.f.haveLatestConfig then Wanting(Snap(s.f)) else Refreshing(Snap(s.f)))
      else s
    case Complain =>
      if s.retry.Complaining? then
        var recorded := s.alive && Current(s.f, s.retry.snap.(have := true));
        s.(retry := Refreshing(s.retry.snap),
           f := if recorded then Failed(s.f, Some(s.retry.err), s.f.authURL, true) else s.f)
      else s
    case Refresh(err) =>
      if s.retry.Refreshing? then
        var recorded := s.retry.snap.runtime.Some? && err.Some? && s.alive && Current(s.f, s.retry.snap);
        s.(retry := Ending, f := if recorded then RefreshFailed(s.f, err.value) else s.f)
      else s
    case End =>
      if s.retry.Ending? then s.(retry := NoRetry, f := s.f.(networkRetrying := false)) else s
  }

  // ----- applyNetworkConfig -----

  datatype Outcome = Applied | Outdated | Error(err: Failure)

  /** Releases operationMu and hands the result back to the caller. */
  function Finish(s: State, outcome: Outcome): State
    requires s.op.Applying?
  {
    s.(op := Free,
       worker := if s.op.caller.Worker? then AfterWork(s.op.snap, outcome) else s.worker,
       retry := if s.op.caller.Retrier? then AfterTry(s.op.snap, outcome) else s.retry)
  }

  function AfterWork(snap: Snapshot, outcome: Outcome): WorkerState {
    if outcome.Error? then Failing(snap, outcome.err) else Idle
  }

  function AfterTry(snap: Snapshot, outcome: Outcome): RetryState {
    match outcome
    case Applied => Ending
    case Outdated => Refreshing(snap)
    case Error(err) => Complaining(snap, err)
  }

  function Dropped(s: State, device: Option<Stack>): State {
    s.(world := CloseStack(s.world, device))
  }

  /** Gives up before publication: a stack made for this apply is closed. */
  function Abandon(s: State, w: Work, outcome: Outcome): State
    requires s.op.Applying?
  {
    Finish(if w.replace then Dropped(s, Some(w.device)) else s, outcome)
  }

  function At(s: State, p: Phase): State
    requires s.op.Applying?
  {
    s.(op := s.op.(phase := p))
  }

  function DoApply(o: Settings, s: State, a: ApplyAction): State
  {
    match a
    case Lock(caller) => DoLock(s, caller)
    case Check(resolverErr) => if AtPhase(s) && s.op.phase.Entered? then DoCheck(s, resolverErr) else s
    case Make(createErr, bootErr) => if AtPhase(s) && s.op.phase.Snapped? then DoMake(o, s, createErr, bootErr) else s
    case Confirm => if AtPhase(s) && s.op.phase.Made? then DoConfirm(s) else s
    case Recheck => if AtPhase(s) && s.op.phase.Confirmed? then DoRecheck(s) else s
    case MutateLink(linkErr) => if AtPhase(s) && s.op.phase.Rechecked? then DoMutateLink(o, s, linkErr) else s
    case Publish => if AtPhase(s) && s.op.phase.Linked? then DoPublish(o, s) else s
    case Rollback(ok) => if AtPhase(s) && s.op.phase.Stale? then DoRollback(o, s, ok) else s
    case Replace => if AtPhase(s) && s.op.phase.Replacing? then DoReplace(s) else s
  }

  predicate AtPhase(s: State) {
    s.op.Applying?
  }

  function DoLock(s: State, caller: Caller): State
  {
    if !s.op.Free? then s
    else if caller.Worker? && s.worker.Holding? then
      s.(op := Applying(Worker, s.worker.snap, Entered), worker := Busy(s.worker.snap))
    else if caller.Retrier? && s.retry.Wanting? then
      s.(op := Applying(Retrier, s.retry.snap, Entered), retry := Trying(s.retry.snap))
    else s
  }

  function DoCheck(s: State, resolverErr: Option<Failure>): State
    requires s.op.Applying?
  {
    var verdict := CheckVerdict(s.alive, s.f, s.op.snap, resolverErr);
    if verdict.Some? then Finish(s, verdict.value)
    else At(s, Snapped(s.f.runtime.value, s.f.tunDevice, s.f.config))
  }

  /** Why an apply ends before it builds anything, if it does. */
  function CheckVerdict(alive: bool, f: Fields, snap: Snapshot, resolverErr: Option<Failure>): Option<Outcome> {
    if !alive then Some(Error(OutboundClosed))
    else if !StillWanted(f, f.runtime, snap) then Some(Outdated)
    else if f.runtime.None? then Some(Error(NotStarted))
    else if snap.config.addresses == [] then Some(Error(NoAddresses))
    else if resolverErr.Some? then Some(Error(resolverErr.value))
    else None
  }

  function DoMake(o: Settings, s: State, createErr: Option<Failure>, bootErr: Option<Failure>): State
    requires s.op.Applying? && s.op.phase.Snapped?
  {
    var Snapped(rt, oldDevice, oldConfig) := s.op.phase;
    var config := s.op.snap.config;
    var mtu := EffectiveMTU(o, config);
    if oldDevice.Some? && oldConfig.addresses == config.addresses && EffectiveMTU(o, oldConfig) == mtu then
      At(s, Made(Work(rt, oldDevice, oldConfig, oldDevice.value, false)))
    else if createErr.Some? then Finish(s, Error(createErr.value))
    else if bootErr.Some? then Finish(Dropped(WithStack(s), Some(FreshStack(o, s))), Error(bootErr.value))
    else At(WithStack(s), Made(Work(rt, oldDevice, oldConfig, FreshStack(o, s), true)))
  }

  function FreshStack(o: Settings, s: State): Stack
    requires s.op.Applying?
  {
    Stack(s.world.nextStack, s.op.snap.config.addresses, EffectiveMTU(o, s.op.snap.config))
  }

  function WithStack(s: State): State {
    s.(world := s.world.(nextStack := s.world.nextStack + 1))
  }

  function DoConfirm(s: State): State
    requires s.op.Applying? && s.op.phase.Made?
  {
    var w := s.op.phase.work;
    if w.replace && !s.alive then Abandon(s, w, Error(OutboundClosed)) else At(s, Confirmed(w))
  }

  function DoRecheck(s: State): State
    requires s.op.Applying? && s.op.phase.Confirmed?
  {
    var w := s.op.phase.work;
    if s.f.tunDevice == w.oldDevice && StillWanted(s.f, Some(w.rt), s.op.snap) then At(s, Rechecked(w))
    else Abandon(s, w, Outdated)
  }

  function OnLink(s: State, rt: nat, config: Config): State {
    s.(world := s.world.(links := s.world.links[rt := config]))
  }

  function DoMutateLink(o: Settings, s: State, linkErr: Option<Failure>): State
    requires s.op.Applying? && s.op.phase.Rechecked?
  {
    var w := s.op.phase.work;
    if linkErr.Some? then Abandon(s, w, Error(linkErr.value))
    else OnLink(At(s, Linked(w)), w.rt, LinkConfig(o, s.op.snap.config))
  }

  function DoPublish(o: Settings, s: State): State
    requires s.op.Applying? && s.op.phase.Linked?
  {
    var w := s.op.phase.work;
    if s.f.tunDevice != w.oldDevice || !StillWanted(s.f, Some(w.rt), s.op.snap) then At(s, Stale(w))
    else
      At(s, Replacing(if w.replace then s.f.tunDevice else None)).(
        f := Published(s.f, s.op.snap.config, w.device, ResolverFor(o, s.op.snap.config)),
        world := s.world.(linkTrusted := true, consumed := s.world.consumed + [s.op.snap.generation]))
  }

  function DoRollback(o: Settings, s: State, ok: bool): State
    requires s.op.Applying? && s.op.phase.Stale?
  {
    Abandon(Restored(o, s, ok), s.op.phase.work, Outdated)
  }

  /** Re-applies the old configuration, if there was one, to the link. */
  function Restored(o: Settings, s: State, ok: bool): State
    requires s.op.Applying? && s.op.phase.Stale?
  {
    var w := s.op.phase.work;
    if w.oldConfig.network != o.network || w.oldConfig.addresses == [] then s
    else if ok then OnLink(s, w.rt, LinkConfig(o, w.oldConfig))
    else s.(world := s.world.(linkTrusted := false))
  }

  function DoReplace(s: State): State
    requires s.op.Applying? && s.op.phase.Replacing?
  {
    Finish(Dropped(s, s.op.phase.replaced), Applied)
  }

  // ----- startLocked -----

  function DoLaunch(s: State, a: LaunchAction): State
  {
    match a
    case EnterStart =>
      if s.op.Free? && !s.closed && s.alive && s.f.runtime.None? then s.(op := Starting(false)) else s
    case AbortStart =>
      if s.op.Starting? then s.(op := if s.op.recovering then Reporting else Free) else s
    case PublishRuntime =>
      if s.op.Starting? then
        s.(op := Started(s.world.nextRuntime, s.op.recovering), f := Begun(s.f, s.world.nextRuntime),
           world := s.world.(nextRuntime := s.world.nextRuntime + 1))
      else s
    case WithdrawRuntime =>
      if s.op.Started? then
        s.(op := StartFailed(s.op.rt, s.op.recovering),
           f := Withdrawn(s.f, s.op.rt))
      else s
    case CloseWithdrawn =>
      if s.op.StartFailed? then
        s.(op := if s.op.recovering then Reporting else Free, world := CloseRuntime(s.world, Some(s.op.rt)))
      else s
    case Report(startErr) =>
      if s.op.Reporting? then (if s.alive then Invalidate(s, Some(startErr), None) else s).(op := Free) else s
    case FinishStart =>
      if s.op.Started? then s.(op := Free, background := true) else s
  }

  // ----- recoverIdentityCollision and Close -----

  function DoShut(o: Settings, s: State, a: ShutAction): State
  {
    match a
    case EnterRecovery(source) =>
      if s.op.Free? && !s.closed && s.alive then s.(op := Recovering(source)) else s
    case Detach(addressMatches) =>
      if !s.op.Recovering? then s
      else if s.f.runtime != Some(s.op.source) || !addressMatches then s.(op := Free)
      else
        s.(op := Detaching(s.op.source, s.f.tunDevice),
           f := Retired(s.f, if o.configuredIdentity then Some(Collision) else None))
    case CloseDetached =>
      if s.op.Detaching? then
        s.(op := if o.configuredIdentity || !s.alive then Free else Starting(true),
           world := CloseBoth(s.world, Some(s.op.rt), s.op.device))
      else s
    case Cancel => s.(alive := false)
    case DetachAll =>
      if s.op.Free? && !s.alive && !s.closed then
        s.(closed := true, closer := Closing(s.f.runtime, s.f.tunDevice), f := Retired(s.f, Some(OutboundClosed)))
      else s
    case CloseAll =>
      if s.closer.Closing? then
        s.(closer := NoCloser, world := CloseBoth(s.world, s.closer.rt, s.closer.device))
      else s
  }

  function Exec(o: Settings, s: State, a: Action): State
  {
    match a
    case Callback(c) => DoCallback(o, s, c)
    case Loop(w) => DoWorker(s, w)
    case Retry(r) => DoRetry(s, r)
    case Apply(p) => DoApply(o, s, p)
    case Launch(l) => DoLaunch(s, l)
    case Shut(x) => DoShut(o, s, x)
  }

  /** Any interleaving from `s`. An action that is not enabled leaves the state as it is. */
  ghost function Run(o: Settings, s: State, actions: seq<Action>): State
    decreases |actions|
  {
    if actions == [] then s else Run(o, Exec(o, s, actions[0]), actions[1..])
  }

  ghost predicate Reachable(o: Settings, s: State) {
    exists actions :: s == Run(o, Boot(), actions)
  }
}
