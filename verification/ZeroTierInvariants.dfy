/** What every step of the ZeroTier protocol keeps. */
module ZeroTierInvariants {
  import opened Options
  import opened ZeroTierFields
  import opened ZeroTierProtocol

  // ----- threads and locks -----

  ghost predicate HasWork(p: Phase) {
    p.Made? || p.Confirmed? || p.Rechecked? || p.Linked? || p.Stale?
  }

  /** What the holder of operationMu knows about runtime and stack, and what its caller is doing meanwhile. */
  ghost predicate OpShape(op: Operation, f: Fields, worker: WorkerState, retry: RetryState) {
    match op
    case Free => true
    case Applying(caller, snap, phase) =>
      && snap.have
      && (caller.Worker? ==> worker == Busy(snap))
      && (caller.Retrier? ==> retry == Trying(snap))
      && (phase.Snapped? ==> f.runtime == Some(phase.rt))
      && (HasWork(phase) ==> f.runtime == Some(phase.work.rt))
    case Starting(_) => f.runtime.None?
    case Started(rt, _) => f.runtime == Some(rt) && f.tunDevice.None?
    case StartFailed(_, _) => f.runtime.None?
    case Reporting => f.runtime.None?
    case Recovering(_) => true
    case Detaching(_, _) => f.runtime.None?
  }

  ghost predicate ClosedShape(s: State) {
    && (s.closed ==> !s.alive && s.f.runtime.None? && (s.op.Free? || (s.op.Applying? && s.op.phase.Entered?)))
    && (s.closer.Closing? ==> s.closed)
  }

  ghost predicate FieldShape(f: Fields, nextRuntime: nat) {
    Consistent(f) && (f.runtime.Some? ==> f.runtime.value < nextRuntime)
  }

  ghost predicate Shape(s: State) {
    && OpShape(s.op, s.f, s.worker, s.retry)
    && (s.worker.Busy? ==> s.op.Applying? && s.op.caller.Worker?)
    && (s.retry.Trying? ==> s.op.Applying? && s.op.caller.Retrier?)
    && (s.f.networkRetrying <==> !s.retry.NoRetry?)
    && FieldShape(s.f, s.world.nextRuntime)
    && ClosedShape(s)
  }

  // ----- snapshots and generations -----

  ghost predicate GoodSnap(o: Settings, f: Fields, snap: Snapshot) {
    snap.generation <= f.configGeneration && (snap.have ==> snap.config.network == o.network)
  }

  ghost predicate HoldsSnap(w: WorkerState) {
    w.Holding? || w.Busy? || w.Failing?
  }

  ghost predicate WorkerSnap(o: Settings, f: Fields, w: WorkerState) {
    HoldsSnap(w) ==> GoodSnap(o, f, w.snap) && w.snap.have
  }

  ghost predicate RetrySnap(o: Settings, f: Fields, r: RetryState) {
    && (r.Wanting? || r.Trying? || r.Complaining? ==> r.snap.have)
    && (r.Wanting? || r.Trying? || r.Complaining? || r.Refreshing? ==> GoodSnap(o, f, r.snap))
  }

  ghost predicate OpSnap(o: Settings, f: Fields, op: Operation) {
    op.Applying? ==> GoodSnap(o, f, op.snap)
  }

  /** The latest configuration came from the current runtime's node and is for the joined network. */
  ghost predicate Sourced(o: Settings, f: Fields, accepted: Option<nat>) {
    f.haveLatestConfig ==> f.latestConfig.network == o.network && (f.runtime.Some? ==> accepted == f.runtime)
  }

  ghost predicate Snapshots(o: Settings, s: State) {
    && OpSnap(o, s.f, s.op)
    && WorkerSnap(o, s.f, s.worker)
    && RetrySnap(o, s.f, s.retry)
    && Sourced(o, s.f, s.world.accepted)
  }

  ghost predicate Consumed(consumed: seq<nat>, generation: nat) {
    && (forall i, j | 0 <= i < j < |consumed| :: consumed[i] < consumed[j])
    && (forall i | 0 <= i < |consumed| :: consumed[i] < generation)
  }

  // ----- the data plane -----

  /** The stack was built for this configuration, which is one that can be served. */
  ghost predicate Serves(o: Settings, device: Stack, config: Config) {
    && config.network == o.network && config.addresses != []
    && device.addresses == config.addresses && device.mtu == EffectiveMTU(o, config)
  }

  ghost predicate LinkHolds(o: Settings, links: map<nat, Config>, rt: nat, config: Config) {
    rt in links && links[rt] == LinkConfig(o, config)
  }

  ghost predicate Mutating(op: Operation) {
    op.Applying? && (op.phase.Linked? || op.phase.Stale?)
  }

  /** The old stack is still current unless a failure took it away meanwhile. */
  ghost predicate OldKept(o: Settings, f: Fields, generation: nat, oldDevice: Option<Stack>, oldConfig: Config) {
    && (f.configGeneration == generation ==> f.haveLatestConfig)
    && f.config == oldConfig
    && (f.tunDevice == oldDevice || f.tunDevice.None?)
    && (oldDevice.Some? ==> Serves(o, oldDevice.value, oldConfig))
    && (f.configGeneration == generation && f.tunDevice != oldDevice ==> f.retryLatestConfig)
  }

  ghost predicate WorkGood(o: Settings, f: Fields, snap: Snapshot, w: Work) {
    && OldKept(o, f, snap.generation, w.oldDevice, w.oldConfig)
    && Serves(o, w.device, snap.config)
    && (!w.replace ==> w.oldDevice == Some(w.device))
  }

  ghost predicate OpPlane(o: Settings, f: Fields, op: Operation) {
    op.Applying? ==>
      match op.phase
      case Entered => true
      case Snapped(rt, oldDevice, oldConfig) =>
        OldKept(o, f, op.snap.generation, oldDevice, oldConfig) && op.snap.config.addresses != []
      case Replacing(_) => op.snap.generation < f.configGeneration
      case _ => WorkGood(o, f, op.snap, op.phase.work)
  }

  ghost predicate StackPlane(o: Settings, f: Fields) {
    f.tunDevice.Some? ==> Serves(o, f.tunDevice.value, f.config) && f.resolver == ResolverFor(o, f.config)
  }

  ghost predicate LinkPlane(o: Settings, f: Fields, op: Operation, links: map<nat, Config>, trusted: bool) {
    && (f.tunDevice.Some? && f.runtime.Some? && trusted && !Mutating(op) ==> LinkHolds(o, links, f.runtime.value, f.config))
    && (Mutating(op) ==> LinkHolds(o, links, op.phase.work.rt, op.snap.config))
  }

  ghost predicate Plane(o: Settings, s: State) {
    && StackPlane(o, s.f)
    && OpPlane(o, s.f, s.op)
    && LinkPlane(o, s.f, s.op, s.world.links, s.world.linkTrusted)
  }

  // ----- no configuration is lost -----

  ghost predicate Served(f: Fields) {
    f.tunDevice.Some? && f.config == f.latestConfig
  }

  /** A wake-up is queued or about to be sent, or a retry is due. */
  ghost predicate Pending(s: State) {
    s.token || s.signals > 0 || s.f.retryLatestConfig
  }

  /** Something is still under way that will bring the latest configuration up. */
  ghost predicate UnderWay(s: State) {
    Pending(s) || s.worker.Woken? || (HoldsSnap(s.worker) && Current(s.f, s.worker.snap))
  }

  ghost predicate NotLost(s: State) {
    && (s.alive && s.f.runtime.Some? && s.f.haveLatestConfig ==> Served(s.f) || UnderWay(s))
    && (s.op.Applying? && s.op.caller.Worker? && s.op.phase.Stale? && Current(s.f, s.op.snap) ==> Pending(s))
  }

  // ----- no wake-up is missed -----

  ghost predicate Waiters(parked: set<nat>, notifications: nat, idle: bool) {
    forall e | e in parked :: e <= notifications && (e == notifications ==> idle)
  }

  ghost predicate Idling(f: Fields) {
    f.tunDevice.None? && f.networkErr.None?
  }

  ghost predicate Inv(o: Settings, s: State) {
    && Shape(s) && Snapshots(o, s) && Plane(o, s) && NotLost(s)
    && Consumed(s.world.consumed, s.f.configGeneration)
    && Waiters(s.world.parked, s.f.notifications, Idling(s.f))
  }

  // ----- one lemma per action -----

  lemma LockKeeps(o: Settings, s: State, caller: Caller)
    requires Inv(o, s)
    ensures Inv(o, DoLock(s, caller))
  {
  }

  /** A worker may stop holding its snapshot once that is outdated or something else is under way. */
  ghost predicate MayDrop(s: State, outcome: Outcome)
    requires s.op.Applying?
  {
    s.op.caller.Worker? && !outcome.Error? && Current(s.f, s.op.snap) ==>
      Pending(s) || Served(s.f)
  }

  lemma FinishKeeps(o: Settings, s: State, outcome: Outcome)
    requires Inv(o, s) && s.op.Applying? && !Mutating(s.op) && MayDrop(s, outcome)
    ensures Inv(o, Finish(s, outcome))
  {
  }

  lemma DroppedKeeps(o: Settings, s: State, device: Option<Stack>)
    requires Inv(o, s)
    ensures Inv(o, Dropped(s, device))
  {
  }

  lemma AbandonKeeps(o: Settings, s: State, w: Work, outcome: Outcome)
    requires Inv(o, s) && s.op.Applying? && !Mutating(s.op) && MayDrop(s, outcome)
    ensures Inv(o, Abandon(s, w, outcome))
  {
    DroppedKeeps(o, s, Some(w.device));
    FinishKeeps(o, if w.replace then Dropped(s, Some(w.device)) else s, outcome);
  }

  lemma CheckKeeps(o: Settings, s: State, resolverErr: Option<Failure>)
    requires Inv(o, s) && s.op.Applying? && s.op.phase.Entered?
    ensures Inv(o, DoCheck(s, resolverErr))
  {
    var verdict := CheckVerdict(s.alive, s.f, s.op.snap, resolverErr);
    if verdict.Some? {
      FinishKeeps(o, s, verdict.value);
    }
  }

  lemma MutateLinkKeeps(o: Settings, s: State, linkErr: Option<Failure>)
    requires Inv(o, s) && s.op.Applying? && s.op.phase.Rechecked?
    ensures Inv(o, DoMutateLink(o, s, linkErr))
  {
    if linkErr.Some? {
      AbandonKeeps(o, s, s.op.phase.work, Error(linkErr.value));
    }
  }

  lemma WithStackKeeps(o: Settings, s: State)
    requires Inv(o, s)
    ensures Inv(o, WithStack(s))
  {
  }

  lemma MadeKeeps(o: Settings, s: State, w: Work)
    requires Inv(o, s) && s.op.Applying? && s.op.phase.Snapped?
    requires w.rt == s.op.phase.rt && w.oldDevice == s.op.phase.oldDevice && w.oldConfig == s.op.phase.oldConfig
    requires Serves(o, w.device, s.op.snap.config) && (!w.replace ==> w.oldDevice == Some(w.device))
    ensures Inv(o, At(s, Made(w)))
  {
  }

  lemma MakeKeeps(o: Settings, s: State, createErr: Option<Failure>, bootErr: Option<Failure>)
    requires Inv(o, s) && s.op.Applying? && s.op.phase.Snapped?
    ensures Inv(o, DoMake(o, s, createErr, bootErr))
  {
    var Snapped(rt, oldDevice, oldConfig) := s.op.phase;
    var config := s.op.snap.config;
    if oldDevice.Some? && oldConfig.addresses == config.addresses && EffectiveMTU(o, oldConfig) == EffectiveMTU(o, config) {
      MadeKeeps(o, s, Work(rt, oldDevice, oldConfig, oldDevice.value, false));
    } else if createErr.Some? {
      FinishKeeps(o, s, Error(createErr.value));
    } else {
      WithStackKeeps(o, s);
      if bootErr.Some? {
        DroppedKeeps(o, WithStack(s), Some(FreshStack(o, s)));
        FinishKeeps(o, Dropped(WithStack(s), Some(FreshStack(o, s))), Error(bootErr.value));
      } else {
        MadeKeeps(o, WithStack(s), Work(rt, oldDevice, oldConfig, FreshStack(o, s), true));
      }
    }
  }

  lemma ConfirmKeeps(o: Settings, s: State)
    requires Inv(o, s) && s.op.Applying? && s.op.phase.Made?
    ensures Inv(o, DoConfirm(s))
  {
    if s.op.phase.work.replace && !s.alive {
      AbandonKeeps(o, s, s.op.phase.work, Error(OutboundClosed));
    }
  }

  lemma RecheckKeeps(o: Settings, s: State)
    requires Inv(o, s) && s.op.Applying? && s.op.phase.Confirmed?
    ensures Inv(o, DoRecheck(s))
  {
    var w := s.op.phase.work;
    if s.f.tunDevice != w.oldDevice || !StillWanted(s.f, Some(w.rt), s.op.snap) {
      AbandonKeeps(o, s, w, Outdated);
    }
  }

  lemma PublishShape(o: Settings, s: State)
    requires Inv(o, s) && s.op.Applying? && s.op.phase.Linked?
    ensures Shape(DoPublish(o, s))
  {
  }

  lemma PublishSnapshots(o: Settings, s: State)
    requires Inv(o, s) && s.op.Applying? && s.op.phase.Linked?
    ensures Snapshots(o, DoPublish(o, s))
  {
  }

  lemma PublishPlane(o: Settings, s: State)
    requires Inv(o, s) && s.op.Applying? && s.op.phase.Linked?
    ensures Plane(o, DoPublish(o, s))
  {
  }

  lemma PublishKeeps(o: Settings, s: State)
    requires Inv(o, s) && s.op.Applying? && s.op.phase.Linked?
    ensures Inv(o, DoPublish(o, s))
  {
    PublishShape(o, s);
    PublishSnapshots(o, s);
    PublishPlane(o, s);
  }

  /** After the link is restored the apply no longer counts as mutating it. */
  lemma RollbackKeeps(o: Settings, s: State, ok: bool)
    requires Inv(o, s) && s.op.Applying? && s.op.phase.Stale?
    ensures Inv(o, DoRollback(o, s, ok))
  {
    var w := s.op.phase.work;
    RestoredKeeps(o, s, ok);
    RestoredMayDrop(o, s, ok);
    AbandonKeeps(o, At(Restored(o, s, ok), Confirmed(w)), w, Outdated);
    AbandonIgnoresPhase(Restored(o, s, ok), Confirmed(w), w, Outdated);
  }

  lemma AbandonIgnoresPhase(s: State, p: Phase, w: Work, outcome: Outcome)
    requires s.op.Applying?
    ensures Abandon(At(s, p), w, outcome) == Abandon(s, w, outcome)
  {
  }

  lemma RestoredPlane(o: Settings, s: State, ok: bool)
    requires Inv(o, s) && s.op.Applying? && s.op.phase.Stale?
    ensures Plane(o, At(Restored(o, s, ok), Confirmed(s.op.phase.work)))
  {
  }

  lemma RestoredShape(o: Settings, s: State, ok: bool)
    requires Inv(o, s) && s.op.Applying? && s.op.phase.Stale?
    ensures var r := At(Restored(o, s, ok), Confirmed(s.op.phase.work)); Shape(r) && Snapshots(o, r)
  {
  }

  lemma RestoredKeeps(o: Settings, s: State, ok: bool)
    requires Inv(o, s) && s.op.Applying? && s.op.phase.Stale?
    ensures Inv(o, At(Restored(o, s, ok), Confirmed(s.op.phase.work)))
  {
    RestoredPlane(o, s, ok);
    RestoredShape(o, s, ok);
  }

  lemma RestoredMayDrop(o: Settings, s: State, ok: bool)
    requires Inv(o, s) && s.op.Applying? && s.op.phase.Stale?
    ensures MayDrop(At(Restored(o, s, ok), Confirmed(s.op.phase.work)), Outdated)
  {
  }

  lemma ReplaceKeeps(o: Settings, s: State)
    requires Inv(o, s) && s.op.Applying? && s.op.phase.Replacing?
    ensures Inv(o, DoReplace(s))
  {
    DroppedKeeps(o, s, s.op.phase.replaced);
    FinishKeeps(o, Dropped(s, s.op.phase.replaced), Applied);
  }

  lemma StoreKeeps(o: Settings, s: State, source: nat, config: Config)
    requires Inv(o, s)
    ensures Inv(o, DoCallback(o, s, Store(source, config)))
  {
  }

  lemma SignalKeeps(o: Settings, s: State)
    requires Inv(o, s)
    ensures Inv(o, DoCallback(o, s, Signal))
  {
  }

  lemma NetworkFailedKeeps(o: Settings, s: State, source: nat, err: Option<Failure>, authURL: Option<nat>)
    requires Inv(o, s)
    ensures Inv(o, DoCallback(o, s, NetworkFailed(source, err, authURL)))
  {
  }

  lemma DeviceFailedKeeps(o: Settings, s: State, device: nat, cause: Failure)
    requires Inv(o, s)
    ensures Inv(o, DoCallback(o, s, DeviceFailed(device, cause)))
  {
  }

  lemma ParkKeeps(o: Settings, s: State)
    requires Inv(o, s)
    ensures Inv(o, DoCallback(o, s, Park))
  {
  }

  lemma WakeKeeps(o: Settings, s: State)
    requires Inv(o, s)
    ensures Inv(o, DoWorker(s, Wake))
  {
  }

  lemma TakeKeeps(o: Settings, s: State)
    requires Inv(o, s)
    ensures Inv(o, DoWorker(s, Take))
  {
  }

  lemma RecordKeeps(o: Settings, s: State)
    requires Inv(o, s)
    ensures Inv(o, DoWorker(s, Record))
  {
    if s.worker.Failing? {
      RecordedKeeps(o, s, s.worker.err);
    }
  }

  /** A worker that gives up a snapshot which is still current leaves a retry behind that begins with it. */
  lemma RecordLeavesRetry(o: Settings, s: State)
    requires Inv(o, s) && s.worker.Failing?
    ensures var r := DoWorker(s, Record);
      && r.worker.Idle?
      && (s.alive && Current(s.f, s.worker.snap) ==> r.f.retryLatestConfig && r.f.latestConfig == s.worker.snap.config)
      && (!s.alive || !Current(s.f, s.worker.snap) ==> r.f == s.f)
  {
  }

  lemma RecordedKeeps(o: Settings, s: State, err: Failure)
    requires Inv(o, s) && s.worker.Failing?
    ensures Inv(o, s.(worker := Idle, f := Failed(s.f, Some(err), s.f.authURL, true)))
    ensures !(s.alive && Current(s.f, s.worker.snap.(have := true))) ==> Inv(o, s.(worker := Idle))
  {
  }

  lemma BeginKeeps(o: Settings, s: State)
    requires Inv(o, s)
    ensures Inv(o, DoRetry(s, Begin))
  {
  }

  lemma ComplainKeeps(o: Settings, s: State)
    requires Inv(o, s)
    ensures Inv(o, DoRetry(s, Complain))
  {
  }

  lemma RefreshKeeps(o: Settings, s: State, err: Option<Failure>)
    requires Inv(o, s)
    ensures Inv(o, DoRetry(s, Refresh(err)))
  {
    if s.retry.Refreshing? {
      RetryEndingKeeps(o, s);
      if err.Some? && s.f.networkRetrying { RefreshFailedKeeps(o, s.(retry := Ending), err.value); }
    }
  }

  lemma RetryEndingKeeps(o: Settings, s: State)
    requires Inv(o, s) && s.retry.Refreshing?
    ensures Inv(o, s.(retry := Ending))
  {
  }

  lemma RefreshFailedKeeps(o: Settings, s: State, err: Failure)
    requires Inv(o, s) && s.f.networkRetrying
    ensures Inv(o, s.(f := RefreshFailed(s.f, err)))
  {
  }

  lemma EndKeeps(o: Settings, s: State)
    requires Inv(o, s)
    ensures Inv(o, DoRetry(s, End))
  {
    if s.retry.Ending? {
      EndingKeeps(o, s);
    }
  }

  lemma EndingKeeps(o: Settings, s: State)
    requires Inv(o, s) && s.retry.Ending?
    ensures Inv(o, s.(retry := NoRetry, f := s.f.(networkRetrying := false)))
  {
  }

  lemma EnterStartKeeps(o: Settings, s: State)
    requires Inv(o, s)
    ensures Inv(o, DoLaunch(s, EnterStart))
  {
  }

  lemma AbortStartKeeps(o: Settings, s: State)
    requires Inv(o, s)
    ensures Inv(o, DoLaunch(s, AbortStart))
  {
  }

  lemma PublishRuntimeKeeps(o: Settings, s: State)
    requires Inv(o, s)
    ensures Inv(o, DoLaunch(s, PublishRuntime))
  {
  }

  lemma WithdrawRuntimeKeeps(o: Settings, s: State)
    requires Inv(o, s)
    ensures Inv(o, DoLaunch(s, WithdrawRuntime))
  {
  }

  lemma CloseWithdrawnKeeps(o: Settings, s: State)
    requires Inv(o, s)
    ensures Inv(o, DoLaunch(s, CloseWithdrawn))
  {
  }

  lemma ReportKeeps(o: Settings, s: State, startErr: Failure)
    requires Inv(o, s)
    ensures Inv(o, DoLaunch(s, Report(startErr)))
  {
  }

  lemma FinishStartKeeps(o: Settings, s: State)
    requires Inv(o, s)
    ensures Inv(o, DoLaunch(s, FinishStart))
  {
  }

  lemma EnterRecoveryKeeps(o: Settings, s: State, source: nat)
    requires Inv(o, s)
    ensures Inv(o, DoShut(o, s, EnterRecovery(source)))
  {
  }

  lemma DetachKeeps(o: Settings, s: State, addressMatches: bool)
    requires Inv(o, s)
    ensures Inv(o, DoShut(o, s, Detach(addressMatches)))
  {
  }

  lemma CloseDetachedKeeps(o: Settings, s: State)
    requires Inv(o, s)
    ensures Inv(o, DoShut(o, s, CloseDetached))
  {
  }

  lemma CancelKeeps(o: Settings, s: State)
    requires Inv(o, s)
    ensures Inv(o, DoShut(o, s, Cancel))
  {
  }

  lemma DetachAllKeeps(o: Settings, s: State)
    requires Inv(o, s)
    ensures Inv(o, DoShut(o, s, DetachAll))
  {
  }

  lemma CloseAllKeeps(o: Settings, s: State)
    requires Inv(o, s)
    ensures Inv(o, DoShut(o, s, CloseAll))
  {
  }

  // ----- every action, every run -----

  lemma CallbackKeeps(o: Settings, s: State, a: CallbackAction)
    requires Inv(o, s)
    ensures Inv(o, DoCallback(o, s, a))
  {
    match a
    case Store(source, config) => StoreKeeps(o, s, source, config);
    case Signal => SignalKeeps(o, s);
    case NetworkFailed(source, err, authURL) => NetworkFailedKeeps(o, s, source, err, authURL);
    case DeviceFailed(device, cause) => DeviceFailedKeeps(o, s, device, cause);
    case Park => ParkKeeps(o, s);
  }

  lemma ApplyKeeps(o: Settings, s: State, a: ApplyAction)
    requires Inv(o, s)
    ensures Inv(o, DoApply(o, s, a))
  {
    if a.Lock? {
      LockKeeps(o, s, a.caller);
    } else if s.op.Applying? {
      match a
      case Lock(_) =>
      case Check(resolverErr) => if s.op.phase.Entered? { CheckKeeps(o, s, resolverErr); }
      case Make(createErr, bootErr) => if s.op.phase.Snapped? { MakeKeeps(o, s, createErr, bootErr); }
      case Confirm => if s.op.phase.Made? { ConfirmKeeps(o, s); }
      case Recheck => if s.op.phase.Confirmed? { RecheckKeeps(o, s); }
      case MutateLink(linkErr) => if s.op.phase.Rechecked? { MutateLinkKeeps(o, s, linkErr); }
      case Publish => if s.op.phase.Linked? { PublishKeeps(o, s); }
      case Rollback(ok) => if s.op.phase.Stale? { RollbackKeeps(o, s, ok); }
      case Replace => if s.op.phase.Replacing? { ReplaceKeeps(o, s); }
    }
  }

  lemma LaunchKeeps(o: Settings, s: State, a: LaunchAction)
    requires Inv(o, s)
    ensures Inv(o, DoLaunch(s, a))
  {
    match a
    case EnterStart => EnterStartKeeps(o, s);
    case AbortStart => AbortStartKeeps(o, s);
    case PublishRuntime => PublishRuntimeKeeps(o, s);
    case WithdrawRuntime => WithdrawRuntimeKeeps(o, s);
    case CloseWithdrawn => CloseWithdrawnKeeps(o, s);
    case Report(startErr) => ReportKeeps(o, s, startErr);
    case FinishStart => FinishStartKeeps(o, s);
  }

  lemma ShutKeeps(o: Settings, s: State, a: ShutAction)
    requires Inv(o, s)
    ensures Inv(o, DoShut(o, s, a))
  {
    match a
    case EnterRecovery(source) => EnterRecoveryKeeps(o, s, source);
    case Detach(addressMatches) => DetachKeeps(o, s, addressMatches);
    case CloseDetached => CloseDetachedKeeps(o, s);
    case Cancel => CancelKeeps(o, s);
    case DetachAll => DetachAllKeeps(o, s);
    case CloseAll => CloseAllKeeps(o, s);
  }

  lemma InvKept(o: Settings, s: State, a: Action)
    requires Inv(o, s)
    ensures Inv(o, Exec(o, s, a))
  {
    match a
    case Callback(c) => CallbackKeeps(o, s, c);
    case Loop(Wake) => WakeKeeps(o, s);
    case Loop(Take) => TakeKeeps(o, s);
    case Loop(Record) => RecordKeeps(o, s);
    case Retry(Begin) => BeginKeeps(o, s);
    case Retry(Complain) => ComplainKeeps(o, s);
    case Retry(Refresh(err)) => RefreshKeeps(o, s, err);
    case Retry(End) => EndKeeps(o, s);
    case Apply(p) => ApplyKeeps(o, s, p);
    case Launch(l) => LaunchKeeps(o, s, l);
    case Shut(x) => ShutKeeps(o, s, x);
  }

  lemma InvBoot(o: Settings)
    ensures Inv(o, Boot())
  {
  }

  // ----- stacks and runtimes have exactly one owner -----

  ghost function HeldStack(op: Operation): Option<Stack> {
    match op
    case Applying(_, _, phase) =>
      if phase.Replacing? then phase.replaced
      else if HasWork(phase) && phase.work.replace then Some(phase.work.device)
      else None
    case Detaching(_, device) => device
    case _ => None
  }

  ghost function Is(stack: Option<Stack>, id: nat): nat {
    if stack.Some? && stack.value.id == id then 1 else 0
  }

  ghost function ClosersStack(c: Closer): Option<Stack> {
    if c.Closing? then c.device else None
  }

  /** How many hold stack `id`: as current, for an operation, for Close, or handed over to Close. */
  ghost function Owners(s: State, id: nat): nat {
    Is(s.f.tunDevice, id) + Is(HeldStack(s.op), id) + Is(ClosersStack(s.closer), id) + s.world.closedStacks[id]
  }

  ghost predicate StackAccounted(s: State, id: nat) {
    Owners(s, id) == if id < s.world.nextStack then 1 else 0
  }

  ghost predicate StackAccounts(s: State) {
    forall id: nat :: StackAccounted(s, id)
  }

  ghost function HeldRuntime(op: Operation): Option<nat> {
    match op
    case StartFailed(rt, _) => Some(rt)
    case Detaching(rt, _) => Some(rt)
    case _ => None
  }

  ghost function ClosersRuntime(c: Closer): Option<nat> {
    if c.Closing? then c.rt else None
  }

  ghost function IsRuntime(runtime: Option<nat>, rt: nat): nat {
    if runtime == Some(rt) then 1 else 0
  }

  ghost function RuntimeOwners(s: State, rt: nat): nat {
    IsRuntime(s.f.runtime, rt) + IsRuntime(HeldRuntime(s.op), rt) + IsRuntime(ClosersRuntime(s.closer), rt)
    + s.world.closedRuntimes[rt]
  }

  ghost predicate RuntimeAccounted(s: State, rt: nat) {
    RuntimeOwners(s, rt) == if rt < s.world.nextRuntime then 1 else 0
  }

  ghost predicate RuntimeAccounts(s: State) {
    forall rt: nat :: RuntimeAccounted(s, rt)
  }

  lemma FinishOwners(s: State, outcome: Outcome, id: nat)
    requires s.op.Applying?
    ensures Owners(Finish(s, outcome), id) + Is(HeldStack(s.op), id) == Owners(s, id)
  {
  }

  lemma CloseStackCounts(w: World, device: Option<Stack>, id: nat)
    ensures CloseStack(w, device).closedStacks[id] == w.closedStacks[id] + Is(device, id)
  {
  }

  lemma CloseBothCounts(w: World, rt: Option<nat>, device: Option<Stack>, id: nat)
    ensures CloseBoth(w, rt, device).closedStacks[id] == w.closedStacks[id] + Is(device, id)
    ensures CloseBoth(w, rt, device).closedRuntimes[id] == w.closedRuntimes[id] + IsRuntime(rt, id)
  {
  }

  lemma AbandonOwners(s: State, outcome: Outcome, id: nat)
    requires s.op.Applying? && HasWork(s.op.phase)
    ensures Owners(Abandon(s, s.op.phase.work, outcome), id) == Owners(s, id)
  {
    var w := s.op.phase.work;
    CloseStackCounts(s.world, Some(w.device), id);
    FinishOwners(if w.replace then Dropped(s, Some(w.device)) else s, outcome, id);
  }

  lemma MakeOwners(o: Settings, s: State, createErr: Option<Failure>, bootErr: Option<Failure>, id: nat)
    requires Inv(o, s) && StackAccounted(s, id) && s.op.Applying? && s.op.phase.Snapped?
    ensures StackAccounted(DoMake(o, s, createErr, bootErr), id)
  {
    var Snapped(rt, oldDevice, oldConfig) := s.op.phase;
    var config := s.op.snap.config;
    if oldDevice.Some? && oldConfig.addresses == config.addresses && EffectiveMTU(o, oldConfig) == EffectiveMTU(o, config) {
    } else if createErr.Some? {
      FinishOwners(s, Error(createErr.value), id);
    } else if bootErr.Some? {
      CloseStackCounts(WithStack(s).world, Some(FreshStack(o, s)), id);
      FinishOwners(Dropped(WithStack(s), Some(FreshStack(o, s))), Error(bootErr.value), id);
    } else {
      MadeOwners(o, s, Work(rt, oldDevice, oldConfig, FreshStack(o, s), true), id);
    }
  }

  lemma MadeOwners(o: Settings, s: State, w: Work, id: nat)
    requires StackAccounted(s, id) && s.op.Applying? && s.op.phase.Snapped? && w.replace && w.device == FreshStack(o, s)
    ensures StackAccounted(At(WithStack(s), Made(w)), id)
  {
  }

  lemma CallbackStackKept(o: Settings, s: State, a: CallbackAction, id: nat)
    requires Shape(s) && StackAccounted(s, id)
    ensures StackAccounted(DoCallback(o, s, a), id)
  {
  }

  lemma LaunchStackKept(o: Settings, s: State, a: LaunchAction, id: nat)
    requires Shape(s) && StackAccounted(s, id)
    ensures StackAccounted(DoLaunch(s, a), id)
  {
  }

  lemma DetachOwners(o: Settings, s: State, addressMatches: bool, id: nat)
    requires Shape(s) && StackAccounted(s, id)
    ensures StackAccounted(DoShut(o, s, Detach(addressMatches)), id)
  {
  }

  lemma CloseDetachedOwners(o: Settings, s: State, id: nat)
    requires StackAccounted(s, id) && s.op.Detaching?
    ensures StackAccounted(DoShut(o, s, CloseDetached), id)
  {
    CloseBothCounts(s.world, Some(s.op.rt), s.op.device, id);
  }

  lemma DetachAllOwners(o: Settings, s: State, id: nat)
    requires Shape(s) && StackAccounted(s, id)
    ensures StackAccounted(DoShut(o, s, DetachAll), id)
  {
  }

  lemma CloseAllOwners(o: Settings, s: State, id: nat)
    requires StackAccounted(s, id) && s.closer.Closing?
    ensures StackAccounted(DoShut(o, s, CloseAll), id)
  {
    CloseBothCounts(s.world, s.closer.rt, s.closer.device, id);
  }

  lemma ShutStackKept(o: Settings, s: State, a: ShutAction, id: nat)
    requires Inv(o, s) && StackAccounted(s, id)
    ensures StackAccounted(DoShut(o, s, a), id)
  {
    match a
    case EnterRecovery(_) =>
    case Detach(addressMatches) => DetachOwners(o, s, addressMatches, id);
    case CloseDetached => if s.op.Detaching? { CloseDetachedOwners(o, s, id); }
    case Cancel =>
    case DetachAll => DetachAllOwners(o, s, id);
    case CloseAll => if s.closer.Closing? { CloseAllOwners(o, s, id); }
  }

  lemma ConfirmOwners(s: State, id: nat)
    requires s.op.Applying? && s.op.phase.Made? && StackAccounted(s, id)
    ensures StackAccounted(DoConfirm(s), id)
  {
    AbandonOwners(s, Error(OutboundClosed), id);
  }

  lemma RecheckOwners(s: State, id: nat)
    requires s.op.Applying? && s.op.phase.Confirmed? && StackAccounted(s, id)
    ensures StackAccounted(DoRecheck(s), id)
  {
    AbandonOwners(s, Outdated, id);
  }

  lemma MutateLinkOwners(o: Settings, s: State, linkErr: Option<Failure>, id: nat)
    requires s.op.Applying? && s.op.phase.Rechecked? && StackAccounted(s, id)
    ensures StackAccounted(DoMutateLink(o, s, linkErr), id)
  {
    if linkErr.Some? {
      AbandonOwners(s, Error(linkErr.value), id);
    }
  }

  lemma RollbackOwners(o: Settings, s: State, ok: bool, id: nat)
    requires s.op.Applying? && s.op.phase.Stale? && StackAccounted(s, id)
    ensures StackAccounted(DoRollback(o, s, ok), id)
  {
    AbandonOwners(Restored(o, s, ok), Outdated, id);
  }

  lemma ReplaceOwners(s: State, id: nat)
    requires s.op.Applying? && s.op.phase.Replacing? && StackAccounted(s, id)
    ensures StackAccounted(DoReplace(s), id)
  {
    CloseStackCounts(s.world, s.op.phase.replaced, id);
    FinishOwners(Dropped(s, s.op.phase.replaced), Applied, id);
  }

  lemma ApplyStackKept(o: Settings, s: State, a: ApplyAction, id: nat)
    requires Inv(o, s) && StackAccounted(s, id)
    ensures StackAccounted(DoApply(o, s, a), id)
  {
    match a
    case Lock(_) =>
    case Check(resolverErr) => if s.op.Applying? && s.op.phase.Entered? { CheckOwners(s, resolverErr, id); }
    case Make(createErr, bootErr) => if s.op.Applying? && s.op.phase.Snapped? { MakeOwners(o, s, createErr, bootErr, id); }
    case Confirm => if s.op.Applying? && s.op.phase.Made? { ConfirmOwners(s, id); }
    case Recheck => if s.op.Applying? && s.op.phase.Confirmed? { RecheckOwners(s, id); }
    case MutateLink(linkErr) => if s.op.Applying? && s.op.phase.Rechecked? { MutateLinkOwners(o, s, linkErr, id); }
    case Publish => if s.op.Applying? && s.op.phase.Linked? { PublishOwners(o, s, id); }
    case Rollback(ok) => if s.op.Applying? && s.op.phase.Stale? { RollbackOwners(o, s, ok, id); }
    case Replace => if s.op.Applying? && s.op.phase.Replacing? { ReplaceOwners(s, id); }
  }

  lemma CheckOwners(s: State, resolverErr: Option<Failure>, id: nat)
    requires s.op.Applying? && s.op.phase.Entered? && StackAccounted(s, id)
    ensures StackAccounted(DoCheck(s, resolverErr), id)
  {
    var verdict := CheckVerdict(s.alive, s.f, s.op.snap, resolverErr);
    if verdict.Some? {
      FinishOwners(s, verdict.value, id);
    }
  }

  lemma PublishOwners(o: Settings, s: State, id: nat)
    requires Inv(o, s) && s.op.Applying? && s.op.phase.Linked? && StackAccounted(s, id)
    ensures StackAccounted(DoPublish(o, s), id)
  {
  }

  lemma WorkerFrame(s: State, a: WorkerAction)
    ensures var r := DoWorker(s, a);
      r == s.(worker := r.worker, token := r.token, f := r.f) && r.f.tunDevice == s.f.tunDevice && r.f.runtime == s.f.runtime
  {
  }

  lemma RetryFrame(s: State, a: RetryAction)
    ensures var r := DoRetry(s, a);
      r == s.(retry := r.retry, f := r.f) && r.f.tunDevice == s.f.tunDevice && r.f.runtime == s.f.runtime
  {
  }

  lemma StackKept(o: Settings, s: State, a: Action, id: nat)
    requires Inv(o, s) && StackAccounted(s, id)
    ensures StackAccounted(Exec(o, s, a), id)
  {
    match a
    case Callback(c) => CallbackStackKept(o, s, c, id);
    case Loop(w) => WorkerFrame(s, w);
    case Retry(r) => RetryFrame(s, r);
    case Apply(p) => ApplyStackKept(o, s, p, id);
    case Launch(l) => LaunchStackKept(o, s, l, id);
    case Shut(x) => ShutStackKept(o, s, x, id);
  }

  lemma LaunchRuntimeKept(o: Settings, s: State, a: LaunchAction, rt: nat)
    requires Shape(s) && RuntimeAccounted(s, rt)
    ensures RuntimeAccounted(DoLaunch(s, a), rt)
  {
  }

  lemma CloseDetachedRuntime(o: Settings, s: State, rt: nat)
    requires RuntimeAccounted(s, rt) && s.op.Detaching?
    ensures RuntimeAccounted(DoShut(o, s, CloseDetached), rt)
  {
    CloseBothCounts(s.world, Some(s.op.rt), s.op.device, rt);
  }

  lemma CloseAllRuntime(o: Settings, s: State, rt: nat)
    requires RuntimeAccounted(s, rt) && s.closer.Closing?
    ensures RuntimeAccounted(DoShut(o, s, CloseAll), rt)
  {
    CloseBothCounts(s.world, s.closer.rt, s.closer.device, rt);
  }

  lemma ShutRuntimeKept(o: Settings, s: State, a: ShutAction, rt: nat)
    requires Shape(s) && RuntimeAccounted(s, rt)
    ensures RuntimeAccounted(DoShut(o, s, a), rt)
  {
    if a.CloseDetached? {
      if s.op.Detaching? { CloseDetachedRuntime(o, s, rt); }
    } else if a.CloseAll? {
      if s.closer.Closing? { CloseAllRuntime(o, s, rt); }
    }
  }

  /** `r` differs from `s` in nothing that says who owns which runtime. */
  ghost predicate SameRuntimes(s: State, r: State) {
    && r.f.runtime == s.f.runtime && r.world.nextRuntime == s.world.nextRuntime
    && r.world.closedRuntimes == s.world.closedRuntimes && r.closer == s.closer
    && HeldRuntime(r.op) == HeldRuntime(s.op)
  }

  /** `r` brings up nothing: the published configuration and its stack are those of `s`, or there is no stack. */
  ghost predicate Quiet(s: State, r: State) {
    && r.world.consumed == s.world.consumed
    && (r.f.tunDevice.None? || (r.f.tunDevice == s.f.tunDevice && r.f.config == s.f.config))
  }

  /** Nothing that only grows has shrunk. */
  ghost predicate Forward(s: State, r: State) {
    && s.f.configGeneration <= r.f.configGeneration && s.f.notifications <= r.f.notifications
    && s.world.nextRuntime <= r.world.nextRuntime && s.world.nextStack <= r.world.nextStack
    && (r.alive ==> s.alive) && (s.closed ==> r.closed)
  }

  ghost predicate Modest(s: State, r: State) {
    SameRuntimes(s, r) && Quiet(s, r) && Forward(s, r)
  }

  lemma CallbackIsModest(o: Settings, s: State, a: CallbackAction)
    ensures Modest(s, DoCallback(o, s, a))
  {
  }

  lemma WorkerIsModest(s: State, a: WorkerAction)
    ensures Modest(s, DoWorker(s, a))
  {
  }

  lemma RetryIsModest(s: State, a: RetryAction)
    ensures Modest(s, DoRetry(s, a))
  {
  }

  lemma FinishIsModest(s: State, outcome: Outcome)
    requires s.op.Applying?
    ensures Modest(s, Finish(s, outcome))
  {
  }

  lemma AbandonIsModest(s: State, w: Work, outcome: Outcome)
    requires s.op.Applying?
    ensures Modest(s, Abandon(s, w, outcome))
  {
  }

  lemma CheckIsModest(s: State, resolverErr: Option<Failure>)
    requires s.op.Applying?
    ensures Modest(s, DoCheck(s, resolverErr))
  {
    var verdict := CheckVerdict(s.alive, s.f, s.op.snap, resolverErr);
    if verdict.Some? {
      FinishIsModest(s, verdict.value);
    }
  }

  lemma DroppedIsModest(s: State, device: Option<Stack>)
    ensures Modest(s, Dropped(WithStack(s), device))
  {
  }

  lemma AtIsModest(s: State, p: Phase)
    requires s.op.Applying?
    ensures Modest(s, At(s, p)) && Modest(s, At(WithStack(s), p))
  {
  }

  lemma MakeIsModest(o: Settings, s: State, createErr: Option<Failure>, bootErr: Option<Failure>)
    requires s.op.Applying? && s.op.phase.Snapped?
    ensures Modest(s, DoMake(o, s, createErr, bootErr))
  {
    var Snapped(rt, oldDevice, oldConfig) := s.op.phase;
    var config := s.op.snap.config;
    if oldDevice.Some? && oldConfig.addresses == config.addresses && EffectiveMTU(o, oldConfig) == EffectiveMTU(o, config) {
      AtIsModest(s, Made(Work(rt, oldDevice, oldConfig, oldDevice.value, false)));
    } else if createErr.Some? {
      FinishIsModest(s, Error(createErr.value));
    } else if bootErr.Some? {
      DroppedIsModest(s, Some(FreshStack(o, s)));
      FinishIsModest(Dropped(WithStack(s), Some(FreshStack(o, s))), Error(bootErr.value));
    } else {
      AtIsModest(s, Made(Work(rt, oldDevice, oldConfig, FreshStack(o, s), true)));
    }
  }

  lemma ConfirmIsModest(s: State)
    requires s.op.Applying? && s.op.phase.Made?
    ensures Modest(s, DoConfirm(s))
  {
    AbandonIsModest(s, s.op.phase.work, Error(OutboundClosed));
  }

  lemma RecheckIsModest(s: State)
    requires s.op.Applying? && s.op.phase.Confirmed?
    ensures Modest(s, DoRecheck(s))
  {
    AbandonIsModest(s, s.op.phase.work, Outdated);
  }

  lemma MutateLinkIsModest(o: Settings, s: State, linkErr: Option<Failure>)
    requires s.op.Applying? && s.op.phase.Rechecked?
    ensures Modest(s, DoMutateLink(o, s, linkErr))
  {
    if linkErr.Some? { AbandonIsModest(s, s.op.phase.work, Error(linkErr.value)); }
  }

  lemma PublishIsForward(o: Settings, s: State)
    requires s.op.Applying? && s.op.phase.Linked?
    ensures SameRuntimes(s, DoPublish(o, s)) && Forward(s, DoPublish(o, s))
  {
  }

  lemma RollbackIsModest(o: Settings, s: State, ok: bool)
    requires s.op.Applying? && s.op.phase.Stale?
    ensures Modest(s, DoRollback(o, s, ok))
  {
    AbandonIsModest(Restored(o, s, ok), s.op.phase.work, Outdated);
  }

  lemma ReplaceIsModest(s: State)
    requires s.op.Applying? && s.op.phase.Replacing?
    ensures Modest(s, DoReplace(s))
  {
  }

  ghost predicate Publishing(s: State, a: ApplyAction) {
    a.Publish? && s.op.Applying? && s.op.phase.Linked?
  }

  lemma ApplyIsModest(o: Settings, s: State, a: ApplyAction)
    ensures var r := DoApply(o, s, a);
      SameRuntimes(s, r) && Forward(s, r) && (Quiet(s, r) || Publishing(s, a))
  {
    match a
    case Lock(_) =>
    case Check(resolverErr) => if s.op.Applying? { CheckIsModest(s, resolverErr); }
    case Make(createErr, bootErr) => if s.op.Applying? && s.op.phase.Snapped? { MakeIsModest(o, s, createErr, bootErr); }
    case Confirm => if s.op.Applying? && s.op.phase.Made? { ConfirmIsModest(s); }
    case Recheck => if s.op.Applying? && s.op.phase.Confirmed? { RecheckIsModest(s); }
    case MutateLink(linkErr) => if s.op.Applying? && s.op.phase.Rechecked? { MutateLinkIsModest(o, s, linkErr); }
    case Publish => if s.op.Applying? && s.op.phase.Linked? { PublishIsForward(o, s); }
    case Rollback(ok) => if s.op.Applying? && s.op.phase.Stale? { RollbackIsModest(o, s, ok); }
    case Replace => if s.op.Applying? && s.op.phase.Replacing? { ReplaceIsModest(s); }
  }

  lemma RuntimeKept(o: Settings, s: State, a: Action, rt: nat)
    requires Shape(s) && RuntimeAccounted(s, rt)
    ensures RuntimeAccounted(Exec(o, s, a), rt)
  {
    match a
    case Callback(c) => CallbackIsModest(o, s, c);
    case Loop(w) => WorkerIsModest(s, w);
    case Retry(r) => RetryIsModest(s, r);
    case Apply(p) => ApplyIsModest(o, s, p);
    case Launch(l) => LaunchRuntimeKept(o, s, l, rt);
    case Shut(x) => ShutRuntimeKept(o, s, x, rt);
  }

  // ----- only a start brings a runtime up, only a publication brings a stack up -----

  lemma OnlyLaunchStarts(o: Settings, s: State, a: Action)
    ensures var r := Exec(o, s, a);
      || r.f.runtime == s.f.runtime
      || r.f.runtime.None?
      || (a == Launch(PublishRuntime) && s.op.Starting?)
  {
    match a
    case Callback(c) => CallbackIsModest(o, s, c);
    case Loop(w) => WorkerIsModest(s, w);
    case Retry(r) => RetryIsModest(s, r);
    case Apply(p) => ApplyIsModest(o, s, p);
    case Launch(l) => LaunchStarts(s, l);
    case Shut(x) => ShutStartsNothing(o, s, x);
  }

  lemma LaunchStarts(s: State, a: LaunchAction)
    ensures var r := DoLaunch(s, a);
      r.f.runtime == s.f.runtime || r.f.runtime.None? || (a == PublishRuntime && s.op.Starting?)
  {
  }

  lemma ShutStartsNothing(o: Settings, s: State, a: ShutAction)
    ensures var r := DoShut(o, s, a); r.f.runtime == s.f.runtime || r.f.runtime.None?
  {
  }

  lemma LaunchIsQuiet(o: Settings, s: State, a: LaunchAction)
    requires Shape(s)
    ensures Quiet(s, DoLaunch(s, a))
  {
  }

  lemma ShutIsQuiet(o: Settings, s: State, a: ShutAction)
    requires Shape(s)
    ensures Quiet(s, DoShut(o, s, a))
  {
  }

  lemma OnlyPublishPublishes(o: Settings, s: State, a: Action)
    requires Shape(s)
    ensures Quiet(s, Exec(o, s, a)) || (a.Apply? && Publishing(s, a.apply))
  {
    match a
    case Callback(c) => CallbackIsModest(o, s, c);
    case Loop(w) => WorkerIsModest(s, w);
    case Retry(r) => RetryIsModest(s, r);
    case Apply(p) => ApplyIsModest(o, s, p);
    case Launch(l) => LaunchIsQuiet(o, s, l);
    case Shut(x) => ShutIsQuiet(o, s, x);
  }

  /** `r` publishes what `s` had accepted last. */
  ghost predicate LatestPublished(o: Settings, s: State, r: State) {
    && r.f.runtime == s.f.runtime && s.f.runtime.Some? && s.world.accepted == s.f.runtime
    && s.f.haveLatestConfig && r.f.config == s.f.latestConfig == r.f.latestConfig
    && r.f.tunDevice.Some? && Serves(o, r.f.tunDevice.value, r.f.config) && r.f.resolver == ResolverFor(o, r.f.config)
    && LinkHolds(o, r.world.links, r.f.runtime.value, r.f.config)
    && r.f.networkErr.None? && r.f.authURL.None? && !r.f.retryLatestConfig
    && r.world.consumed == s.world.consumed + [s.f.configGeneration]
    && r.f.configGeneration == s.f.configGeneration + 1
  }

  lemma PublishedIsLatest(o: Settings, s: State)
    requires Inv(o, s) && s.op.Applying? && s.op.phase.Linked?
    ensures Quiet(s, DoPublish(o, s)) || LatestPublished(o, s, DoPublish(o, s))
  {
  }

  // ----- what only grows -----

  lemma LaunchIsForward(o: Settings, s: State, a: LaunchAction)
    ensures Forward(s, DoLaunch(s, a))
  {
  }

  lemma ShutIsForward(o: Settings, s: State, a: ShutAction)
    ensures Forward(s, DoShut(o, s, a))
  {
  }

  lemma ExecIsForward(o: Settings, s: State, a: Action)
    ensures Forward(s, Exec(o, s, a))
  {
    match a
    case Callback(c) => CallbackIsModest(o, s, c);
    case Loop(w) => WorkerIsModest(s, w);
    case Retry(r) => RetryIsModest(s, r);
    case Apply(p) => ApplyIsModest(o, s, p);
    case Launch(l) => LaunchIsForward(o, s, l);
    case Shut(x) => ShutIsForward(o, s, x);
  }
}
