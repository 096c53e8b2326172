/** What the ZeroTier configuration protocol guarantees in every run, and where its guarantees end. */
module ZeroTier {
  import opened Options
  import opened ZeroTierFields
  import opened ZeroTierProtocol
  import opened ZeroTierInvariants

  lemma {:induction false} RunKeeps(o: Settings, s: State, actions: seq<Action>)
    requires Inv(o, s) && StackAccounts(s) && RuntimeAccounts(s)
    ensures var r := Run(o, s, actions); Inv(o, r) && StackAccounts(r) && RuntimeAccounts(r)
    decreases |actions|
  {
    if actions != [] {
      var next := Exec(o, s, actions[0]);
      InvKept(o, s, actions[0]);
      forall id: nat ensures StackAccounted(next, id) {
        StackKept(o, s, actions[0], id);
      }
      forall rt: nat ensures RuntimeAccounted(next, rt) {
        RuntimeKept(o, s, actions[0], rt);
      }
      RunKeeps(o, next, actions[1..]);
    }
  }

  lemma ReachableInv(o: Settings, s: State)
    requires Reachable(o, s)
    ensures Inv(o, s) && StackAccounts(s) && RuntimeAccounts(s)
  {
    var actions :| s == Run(o, Boot(), actions);
    InvBoot(o);
    RunKeeps(o, Boot(), actions);
  }

  /** The record is consistent in every reachable state: what the methods on it require. */
  lemma RecordIsConsistent(o: Settings, s: State)
    requires Reachable(o, s)
    ensures Consistent(s.f)
  {
    ReachableInv(o, s);
  }

  // ----- no lost configuration -----

  /** While a runtime is up, the latest accepted configuration is served or on its way. */
  lemma NoLostConfiguration(o: Settings, s: State)
    requires Reachable(o, s) && s.alive && s.f.runtime.Some? && s.f.haveLatestConfig
    ensures Served(s.f) || UnderWay(s)
    ensures s.world.accepted == s.f.runtime && s.f.latestConfig.network == o.network
  {
    ReachableInv(o, s);
  }

  /** The latest accepted configuration is served or on its way, whether or not a runtime is up. */
  ghost predicate Kept(s: State) {
    s.alive && s.f.haveLatestConfig ==> Served(s.f) || UnderWay(s)
  }

  /** A failed start withdraws its runtime while nothing but a snapshot from it knows of the configuration. */
  ghost predicate Loses(s: State, a: Action) {
    && a == Launch(WithdrawRuntime) && s.op.Started?
    && s.alive && s.f.haveLatestConfig && !s.worker.Woken? && !Pending(s)
  }

  lemma CallbackLosesNothing(o: Settings, s: State, a: CallbackAction)
    requires Inv(o, s) && Kept(s)
    ensures Kept(DoCallback(o, s, a))
  {
  }

  lemma WorkerLosesNothing(o: Settings, s: State, a: WorkerAction)
    requires Inv(o, s) && Kept(s)
    ensures Kept(DoWorker(s, a))
  {
  }

  lemma RetryLosesNothing(o: Settings, s: State, a: RetryAction)
    requires Inv(o, s) && Kept(s)
    ensures Kept(DoRetry(s, a))
  {
  }

  /** An apply holds a snapshot that names a runtime only while that runtime is up. */
  lemma ApplyLosesNothing(o: Settings, s: State, a: ApplyAction)
    requires Inv(o, s) && Kept(s)
    ensures Kept(DoApply(o, s, a))
  {
    ApplyKeeps(o, s, a);
    if s.f.runtime.None? {
      IdleApplyLosesNothing(o, s, a);
    } else {
      ApplyIsModest(o, s, a);
    }
  }

  lemma IdleApplyLosesNothing(o: Settings, s: State, a: ApplyAction)
    requires Inv(o, s) && Kept(s) && s.f.runtime.None?
    ensures Kept(DoApply(o, s, a))
  {
    match a
    case Lock(_) =>
    case Check(resolverErr) => if s.op.Applying? && s.op.phase.Entered? { IdleCheckLosesNothing(o, s, resolverErr); }
    case Replace => if s.op.Applying? && s.op.phase.Replacing? { IdleReplaceLosesNothing(o, s); }
    case _ =>
  }

  lemma IdleCheckLosesNothing(o: Settings, s: State, resolverErr: Option<Failure>)
    requires Inv(o, s) && Kept(s) && s.f.runtime.None? && s.op.Applying? && s.op.phase.Entered?
    ensures Kept(DoCheck(s, resolverErr))
  {
  }

  lemma IdleReplaceLosesNothing(o: Settings, s: State)
    requires Inv(o, s) && Kept(s) && s.f.runtime.None? && s.op.Applying? && s.op.phase.Replacing?
    ensures Kept(DoReplace(s))
  {
  }

  lemma LaunchLosesExactly(o: Settings, s: State, a: LaunchAction)
    requires Inv(o, s) && Kept(s)
    ensures Kept(DoLaunch(s, a)) <==> !Loses(s, Launch(a))
  {
  }

  lemma ShutLosesNothing(o: Settings, s: State, a: ShutAction)
    requires Inv(o, s) && Kept(s)
    ensures Kept(DoShut(o, s, a))
  {
  }

  /** The one step that loses a configuration. */
  lemma LostExactlyAtWithdrawal(o: Settings, s: State, a: Action)
    requires Reachable(o, s) && Kept(s)
    ensures Kept(Exec(o, s, a)) <==> !Loses(s, a)
  {
    ReachableInv(o, s);
    match a
    case Callback(c) => CallbackLosesNothing(o, s, c);
    case Loop(w) => WorkerLosesNothing(o, s, w);
    case Retry(r) => RetryLosesNothing(o, s, r);
    case Apply(p) => ApplyLosesNothing(o, s, p);
    case Launch(l) => LaunchLosesExactly(o, s, l);
    case Shut(x) => ShutLosesNothing(o, s, x);
  }

  ghost predicate AvoidsLoss(o: Settings, s: State, actions: seq<Action>)
    decreases |actions|
  {
    actions == [] || (!Loses(s, actions[0]) && AvoidsLoss(o, Exec(o, s, actions[0]), actions[1..]))
  }

  ghost predicate AlwaysKept(o: Settings, s: State, actions: seq<Action>)
    decreases |actions|
  {
    Kept(s) && (actions == [] || AlwaysKept(o, Exec(o, s, actions[0]), actions[1..]))
  }

  /** A run keeps every configuration, all the way, exactly if it avoids that step. */
  lemma {:induction false} RunKeepsExactly(o: Settings, s: State, actions: seq<Action>)
    requires Reachable(o, s) && Kept(s)
    ensures AlwaysKept(o, s, actions) <==> AvoidsLoss(o, s, actions)
    decreases |actions|
  {
    if actions != [] {
      var next := Exec(o, s, actions[0]);
      LostExactlyAtWithdrawal(o, s, actions[0]);
      if Kept(next) {
        ReachableStep(o, s, actions[0]);
        RunKeepsExactly(o, next, actions[1..]);
      }
    }
  }

  lemma NothingLostFromBoot(o: Settings, actions: seq<Action>)
    ensures AlwaysKept(o, Boot(), actions) <==> AvoidsLoss(o, Boot(), actions)
  {
    ReachableBoot(o);
    RunKeepsExactly(o, Boot(), actions);
  }

  // ----- data-plane agreement -----

  /** When operationMu is not write-held, a current stack, its resolver and the IP link stem from the published
      configuration. The link may only deviate after a rollback that failed. */
  lemma DataPlaneAgreement(o: Settings, s: State)
    requires Reachable(o, s) && s.op.Free? && s.f.tunDevice.Some?
    ensures s.f.runtime.Some? && s.f.runtime.value !in s.world.closedRuntimes
    ensures s.f.config.addresses != [] && s.f.tunDevice.value.addresses == s.f.config.addresses
    ensures s.f.tunDevice.value.mtu == EffectiveMTU(o, s.f.config)
    ensures s.f.resolver == ResolverFor(o, s.f.config)
    ensures s.world.linkTrusted ==> LinkHolds(o, s.world.links, s.f.runtime.value, s.f.config)
    ensures s.f.tunDevice.value.id !in s.world.closedStacks
  {
    ReachableInv(o, s);
    assert RuntimeAccounted(s, s.f.runtime.value) && StackAccounted(s, s.f.tunDevice.value.id);
  }

  /** What MTU a current stack has: the user's limit where it is the smaller one, and otherwise what the controller
      delivered, forced into the library's range, or its default for zero. */
  lemma ServedMTU(o: Settings, s: State)
    requires Reachable(o, s) && s.op.Free? && s.f.tunDevice.Some?
    ensures var m, c := s.f.tunDevice.value.mtu, s.f.config.mtu;
      && (o.mtu != 0 ==> m <= o.mtu)
      && (c == 0 ==> m <= o.defaultMTU && (m == o.defaultMTU || (o.mtu != 0 && m == o.mtu)))
      && (c != 0 && c < o.minMTU ==> m <= o.minMTU && (m == o.minMTU || (o.mtu != 0 && m == o.mtu)))
      && (c != 0 && o.minMTU <= c <= o.maxMTU ==> m <= c && (m == c || (o.mtu != 0 && m == o.mtu)))
      && (o.minMTU <= c && o.maxMTU < c ==> m <= o.maxMTU && (m == o.maxMTU || (o.mtu != 0 && m == o.mtu)))
  {
    ReachableInv(o, s);
  }

  /** Where the link is trusted it has the stack's MTU, and is otherwise given the published configuration as it is. */
  lemma LinkFollowsStack(o: Settings, s: State)
    requires Reachable(o, s) && s.op.Free? && s.f.tunDevice.Some? && s.world.linkTrusted
    ensures s.f.runtime.Some? && s.f.runtime.value in s.world.links
    ensures s.world.links[s.f.runtime.value] ==
      Config(s.f.config.network, s.f.config.addresses, s.f.tunDevice.value.mtu, s.f.config.dns, s.f.config.rest)
  {
    ReachableInv(o, s);
  }

  /** A resolver is published exactly if remote DNS is on and some server is known, and it is the configuration's. */
  lemma ResolverPublished(o: Settings, s: State)
    requires Reachable(o, s) && s.f.tunDevice.Some?
    ensures s.f.resolver.Some? <==> o.remoteDNS && (o.localDNS || s.f.config.dns != [])
    ensures s.f.resolver.Some? ==> s.f.resolver.value == s.f.config
    ensures s.f.config.network == o.network
  {
    ReachableInv(o, s);
  }

  /** After a stale apply is rolled back with a stack still current, the link holds the published configuration
      exactly if restoring it worked or the two configurations put the same on the link. */
  lemma RollbackAgreesExactly(o: Settings, s: State, ok: bool)
    requires Reachable(o, s) && s.op.Applying? && s.op.phase.Stale? && s.f.tunDevice.Some?
    ensures s.f.runtime.Some?
    ensures LinkHolds(o, DoRollback(o, s, ok).world.links, s.f.runtime.value, s.f.config) <==>
      ok || LinkConfig(o, s.op.snap.config) == LinkConfig(o, s.f.config)
  {
    ReachableInv(o, s);
  }

  // ----- conservation -----

  /** Every stack ever created has exactly one owner: it is current, held by the operation or by Close, or it
      was handed to its Close method once. No other stack is known. */
  lemma StackConservation(o: Settings, s: State, id: nat)
    requires Reachable(o, s)
    ensures Owners(s, id) == if id < s.world.nextStack then 1 else 0
    ensures s.world.closedStacks[id] <= 1
  {
    ReachableInv(o, s);
    assert StackAccounted(s, id);
  }

  lemma RuntimeConservation(o: Settings, s: State, rt: nat)
    requires Reachable(o, s)
    ensures RuntimeOwners(s, rt) == if rt < s.world.nextRuntime then 1 else 0
  {
    ReachableInv(o, s);
    assert RuntimeAccounted(s, rt);
  }

  // ----- publication -----

  /** Every step leaves the published configuration and its stack alone or takes the stack down, unless it brings
      up the latest configuration accepted from the current runtime's node, with a stack, resolver and link made for
      it, and spends the snapshot it came from. */
  lemma PublicationIsLatest(o: Settings, s: State, a: Action)
    requires Reachable(o, s)
    ensures Quiet(s, Exec(o, s, a)) || LatestPublished(o, s, Exec(o, s, a))
  {
    ReachableInv(o, s);
    OnlyPublishPublishes(o, s, a);
    if !Quiet(s, Exec(o, s, a)) {
      PublishedIsLatest(o, s);
    }
  }

  /** No generation is published twice, and a snapshot from a published generation is outdated for good. */
  lemma SnapshotSpentOnce(o: Settings, s: State, snap: Snapshot, rt: Option<nat>)
    requires Reachable(o, s)
    ensures forall i, j | 0 <= i < j < |s.world.consumed| :: s.world.consumed[i] < s.world.consumed[j] < s.f.configGeneration
    ensures snap.generation in s.world.consumed ==> !StillWanted(s.f, rt, snap)
  {
    ReachableInv(o, s);
    if snap.generation in s.world.consumed {
      var i :| 0 <= i < |s.world.consumed| && s.world.consumed[i] == snap.generation;
    }
  }

  // ----- how an apply ends -----

  /** `r` follows `s` by the apply giving up with `err`, which its caller is told; what is published is untouched. */
  ghost predicate Reported(s: State, r: State, err: Failure)
    requires s.op.Applying?
  {
    && r.op.Free? && r.f == s.f
    && (s.op.caller.Worker? ==> r.worker == Failing(s.op.snap, err) && r.retry == s.retry)
    && (s.op.caller.Retrier? ==> r.retry == Complaining(s.op.snap, err) && r.worker == s.worker)
  }

  /** Before anything is built: a cancelled context, a missing runtime, a configuration without addresses and a bad
      resolver each end the apply with their own error. */
  lemma CheckErrorsReported(o: Settings, s: State, resolverErr: Option<Failure>)
    requires Reachable(o, s) && s.op.Applying? && s.op.phase.Entered?
    ensures var r := Exec(o, s, Apply(Check(resolverErr)));
      && (!s.alive ==> Reported(s, r, OutboundClosed))
      && (s.alive && Current(s.f, s.op.snap.(runtime := s.f.runtime)) ==>
            && (s.f.runtime.None? ==> Reported(s, r, NotStarted))
            && (s.f.runtime.Some? && s.op.snap.config.addresses == [] ==> Reported(s, r, NoAddresses))
            && (s.f.runtime.Some? && s.op.snap.config.addresses != [] && resolverErr.Some? ==>
                  Reported(s, r, resolverErr.value)))
  {
    ReachableInv(o, s);
  }

  /** The current stack cannot be kept for the configuration being applied. */
  ghost predicate NeedsStack(o: Settings, s: State)
    requires s.op.Applying? && s.op.phase.Snapped?
  {
    || s.op.phase.oldDevice.None?
    || s.op.phase.oldDevice.value.addresses != s.op.snap.config.addresses
    || s.op.phase.oldDevice.value.mtu != EffectiveMTU(o, s.op.snap.config)
  }

  /** A stack that cannot be created or started is reported; one that was created is closed. A stack is only made
      where the current one was built for other addresses or another MTU. */
  lemma StackErrorsReported(o: Settings, s: State, createErr: Option<Failure>, bootErr: Option<Failure>)
    requires Reachable(o, s) && s.op.Applying? && s.op.phase.Snapped?
    ensures var r := Exec(o, s, Apply(Make(createErr, bootErr)));
      && (!NeedsStack(o, s) ==> r.world == s.world && r.op.Applying?)
      && (NeedsStack(o, s) && createErr.Some? ==> Reported(s, r, createErr.value) && r.world == s.world)
      && (NeedsStack(o, s) && createErr.None? && bootErr.Some? ==>
            Reported(s, r, bootErr.value) && r.world.closedStacks[s.world.nextStack] == 1)
  {
    ReachableInv(o, s);
    assert StackAccounted(s, s.world.nextStack);
  }

  /** A stack made for a context that was cancelled meanwhile is closed and the apply ends. */
  lemma CancelledStackClosed(o: Settings, s: State)
    requires Reachable(o, s) && s.op.Applying? && s.op.phase.Made? && s.op.phase.work.replace && !s.alive
    ensures var r := Exec(o, s, Apply(Confirm));
      Reported(s, r, OutboundClosed) && r.world.closedStacks[s.op.phase.work.device.id] == 1
  {
    ReachableInv(o, s);
    assert StackAccounted(s, s.op.phase.work.device.id);
  }

  /** A link that refuses the configuration is reported, keeps what it held, and the stack made for it is closed. */
  lemma LinkErrorReported(o: Settings, s: State, err: Failure)
    requires Reachable(o, s) && s.op.Applying? && s.op.phase.Rechecked?
    ensures var r := Exec(o, s, Apply(MutateLink(Some(err))));
      && Reported(s, r, err) && r.world.links == s.world.links
      && (s.op.phase.work.replace ==> r.world.closedStacks[s.op.phase.work.device.id] == 1)
  {
    ReachableInv(o, s);
    assert StackAccounted(s, s.op.phase.work.device.id);
  }

  /** The apply has ended without an error of its own; `refresh` tells whether a retry goes on to refresh the node. */
  ghost predicate Ended(s: State, r: State, refresh: bool)
    requires s.op.Applying?
  {
    && r.op.Free? && r.f == s.f
    && (s.op.caller.Worker? ==> r.worker.Idle? && r.retry == s.retry)
    && (s.op.caller.Retrier? ==> r.retry == (if refresh then Refreshing(s.op.snap) else Ending) && r.worker == s.worker)
  }

  /** A published apply ends the retry it served. */
  lemma PublishedEnds(o: Settings, s: State)
    requires Reachable(o, s) && s.op.Applying? && s.op.phase.Replacing?
    ensures Ended(s, Exec(o, s, Apply(Replace)), false)
  {
  }

  /** An apply that was overtaken ends silently, and a retry goes on to refresh the node: before anything is built, ... */
  lemma OutdatedEnds(o: Settings, s: State, resolverErr: Option<Failure>)
    requires Reachable(o, s) && s.op.Applying? && s.op.phase.Entered?
    requires s.alive && !Current(s.f, s.op.snap.(runtime := s.f.runtime))
    ensures Ended(s, Exec(o, s, Apply(Check(resolverErr))), true)
  {
    ReachableInv(o, s);
  }

  /** ... before the link is changed, ... */
  lemma OvertakenEnds(o: Settings, s: State)
    requires Reachable(o, s) && s.op.Applying? && s.op.phase.Confirmed?
    requires s.f.tunDevice != s.op.phase.work.oldDevice || !Current(s.f, s.op.snap.(runtime := s.f.runtime))
    ensures Ended(s, Exec(o, s, Apply(Recheck)), true)
  {
    ReachableInv(o, s);
  }

  /** ... and after it was changed and rolled back. */
  lemma RolledBackEnds(o: Settings, s: State, ok: bool)
    requires Reachable(o, s) && s.op.Applying? && s.op.phase.Stale?
    ensures Ended(s, Exec(o, s, Apply(Rollback(ok))), true)
  {
    RestoredFrame(o, s, ok);
    AbandonEnds(Restored(o, s, ok), s.op.phase.work);
  }

  lemma RestoredFrame(o: Settings, s: State, ok: bool)
    requires s.op.Applying? && s.op.phase.Stale?
    ensures var r := Restored(o, s, ok); r == s.(world := r.world)
  {
  }

  lemma AbandonEnds(s: State, w: Work)
    requires s.op.Applying?
    ensures Ended(s, Abandon(s, w, Outdated), true)
  {
  }

  // ----- when a retry or a start begins -----

  /** A retry begins exactly while none is running and no healthy stack is served. */
  lemma RetryBeginsExactly(o: Settings, s: State)
    requires Reachable(o, s)
    ensures Exec(o, s, Retry(Begin)).retry != s.retry <==>
      s.alive && s.retry.NoRetry? && (s.f.tunDevice.None? || s.f.networkErr.Some?)
    ensures s.alive && s.retry.NoRetry? && s.f.tunDevice.None? && s.f.retryLatestConfig ==>
      Exec(o, s, Retry(Begin)).retry.Wanting? && Exec(o, s, Retry(Begin)).retry.snap.config == s.f.latestConfig
  {
    ReachableInv(o, s);
  }

  /** No start begins on a cancelled or closed outbound or beside another runtime, and a restart after a collision
      only where the identity may change. */
  lemma StartsOnlyAlive(o: Settings, s: State, a: Action)
    requires Reachable(o, s)
    ensures var r := Exec(o, s, a);
      r.op.Starting? && !s.op.Starting? ==>
        s.alive && !s.closed && r.f.runtime.None? && (r.op.recovering ==> !o.configuredIdentity)
  {
    ReachableInv(o, s);
    match a
    case Callback(c) => CallbackStartsNot(o, s, c);
    case Loop(w) => WorkerFrame(s, w);
    case Retry(r) => RetryFrame(s, r);
    case Apply(p) => ApplyStartsNot(o, s, p);
    case Launch(l) =>
    case Shut(x) =>
  }

  /** A failure reported by the current runtime's node takes the stack down, is recorded with the address for
      authorisation, and leaves nothing to apply; another runtime's node changes nothing. */
  lemma NetworkFailureRecorded(o: Settings, s: State, source: nat, err: Option<Failure>, authURL: Option<nat>)
    requires Reachable(o, s)
    ensures var r := Exec(o, s, Callback(NetworkFailed(source, err, authURL)));
      if s.alive && s.f.runtime == Some(source) then
        && r.f.networkErr == err && r.f.authURL == authURL && r.f.tunDevice.None? && r.f.runtime == s.f.runtime
        && !r.f.haveLatestConfig && !r.f.retryLatestConfig
        && (s.f.tunDevice.Some? ==> r.world.closedStacks[s.f.tunDevice.value.id] == 1)
      else r == s
  {
    ReachableInv(o, s);
    if s.f.tunDevice.Some? {
      assert StackAccounted(s, s.f.tunDevice.value.id);
    }
  }

  /** A failing device that is still current is taken down and closed, its failure recorded, and its configuration, if
      it is still there, due for a retry; any other device changes nothing. */
  lemma DeviceFailureRecorded(o: Settings, s: State, id: nat, cause: Failure)
    requires Reachable(o, s)
    ensures var r := Exec(o, s, Callback(DeviceFailed(id, cause)));
      if s.alive && s.f.tunDevice.Some? && s.f.tunDevice.value.id == id then
        && r.f.networkErr == Some(cause) && r.f.tunDevice.None? && r.world.closedStacks[id] == 1
        && r.f.retryLatestConfig == s.f.haveLatestConfig && r.f.latestConfig == s.f.latestConfig
      else r == s
  {
    ReachableInv(o, s);
    assert StackAccounted(s, id);
  }

  /** What a worker or a retry was told by an apply, or a retry by the node, is recorded while its snapshot is current,
      and nothing is recorded otherwise. */
  lemma ComplaintsRecorded(o: Settings, s: State, err: Failure)
    requires Reachable(o, s)
    ensures s.worker.Failing? ==>
      Exec(o, s, Loop(Record)).f.networkErr ==
        if s.alive && Current(s.f, s.worker.snap) then Some(s.worker.err) else s.f.networkErr
    ensures s.retry.Complaining? ==>
      Exec(o, s, Retry(Complain)).f.networkErr ==
        if s.alive && Current(s.f, s.retry.snap) then Some(s.retry.err) else s.f.networkErr
    ensures s.retry.Refreshing? ==>
      Exec(o, s, Retry(Refresh(Some(err)))).f.networkErr ==
        if s.alive && s.retry.snap.runtime.Some? && Current(s.f, s.retry.snap) then Some(err) else s.f.networkErr
  {
    ReachableInv(o, s);
  }

  /** Whoever waits for a network is told why there is none: a collision of a configured identity, a restart that
      failed, or the end of the outbound. */
  lemma EndsAreRecorded(o: Settings, s: State, startErr: Failure)
    ensures s.op.Recovering? && s.f.runtime == Some(s.op.source) ==>
      Exec(o, s, Shut(Detach(true))).f.networkErr == if o.configuredIdentity then Some(Collision) else None
    ensures s.op.Reporting? && s.alive ==>
      var r := Exec(o, s, Launch(Report(startErr))); r.f.networkErr == Some(startErr) && !r.f.haveLatestConfig
    ensures s.op.Free? && !s.alive && !s.closed ==>
      var r := Exec(o, s, Shut(DetachAll)); r.closed && r.f.networkErr == Some(OutboundClosed) && r.f.runtime.None?
  {
  }

  lemma CallbackStartsNot(o: Settings, s: State, a: CallbackAction)
    ensures DoCallback(o, s, a).op == s.op
  {
  }

  lemma ApplyStartsNot(o: Settings, s: State, a: ApplyAction)
    ensures DoApply(o, s, a).op.Starting? ==> s.op.Starting?
  {
    match a
    case Make(createErr, bootErr) => if s.op.Applying? && s.op.phase.Snapped? { MakeStartsNot(o, s, createErr, bootErr); }
    case _ =>
  }

  lemma MakeStartsNot(o: Settings, s: State, createErr: Option<Failure>, bootErr: Option<Failure>)
    requires s.op.Applying? && s.op.phase.Snapped?
    ensures !DoMake(o, s, createErr, bootErr).op.Starting?
  {
  }

  // ----- start and retirement -----

  /** `r` has a runtime that `s` had not: the outbound is open, every earlier runtime has been closed once, and
      nothing accepted or built under one of them is left. */
  ghost predicate FreshRuntime(s: State, r: State) {
    && r.f.runtime == Some(s.world.nextRuntime) && !s.closed
    && (forall rt: nat | rt < s.world.nextRuntime :: s.world.closedRuntimes[rt] == 1)
    && !r.f.haveLatestConfig && r.f.tunDevice.None?
  }

  /** A runtime appears only when every earlier one has been closed, and never on a closed outbound. What was
      accepted from an earlier runtime is discarded with it. */
  lemma RuntimeAfterRetirement(o: Settings, s: State, a: Action)
    requires Reachable(o, s)
    ensures var r := Exec(o, s, a); r.f.runtime == s.f.runtime || r.f.runtime.None? || FreshRuntime(s, r)
  {
    ReachableInv(o, s);
    OnlyLaunchStarts(o, s, a);
    if a == Launch(PublishRuntime) && s.op.Starting? {
      forall rt: nat | rt < s.world.nextRuntime ensures s.world.closedRuntimes[rt] == 1 {
        assert RuntimeAccounted(s, rt);
      }
    }
  }

  /** Once closed, the outbound stays without runtime and stack. */
  lemma {:induction false} ClosedForever(o: Settings, s: State, actions: seq<Action>)
    requires Reachable(o, s) && s.closed
    ensures var r := Run(o, s, actions); r.closed && r.f.runtime.None? && r.f.tunDevice.None?
    decreases |actions|
  {
    ReachableInv(o, s);
    if actions != [] {
      ReachableStep(o, s, actions[0]);
      ExecIsForward(o, s, actions[0]);
      ClosedForever(o, Exec(o, s, actions[0]), actions[1..]);
    }
  }

  /** The generation never decreases, a closed or cancelled outbound stays so, and identifiers are not reused. */
  lemma {:induction false} GenerationsGrow(o: Settings, s: State, actions: seq<Action>)
    ensures Forward(s, Run(o, s, actions))
    decreases |actions|
  {
    if actions != [] {
      ExecIsForward(o, s, actions[0]);
      GenerationsGrow(o, Exec(o, s, actions[0]), actions[1..]);
    }
  }

  /** A dialer blocked on the current state channel has nothing to be told. */
  lemma NoMissedWakeup(o: Settings, s: State)
    requires Reachable(o, s) && s.f.notifications in s.world.parked
    ensures s.f.tunDevice.None? && s.f.networkErr.None?
  {
    ReachableInv(o, s);
  }

  // ----- where the guarantees end -----

  lemma {:induction false} RunAppend(o: Settings, s: State, actions: seq<Action>, a: Action)
    ensures Run(o, s, actions + [a]) == Exec(o, Run(o, s, actions), a)
    decreases |actions|
  {
    if actions == [] {
      assert [a][1..] == [];
    } else {
      assert (actions + [a])[1..] == actions[1..] + [a];
      RunAppend(o, Exec(o, s, actions[0]), actions[1..], a);
    }
  }

  lemma ReachableStep(o: Settings, s: State, a: Action)
    requires Reachable(o, s)
    ensures Reachable(o, Exec(o, s, a))
  {
    var actions :| s == Run(o, Boot(), actions);
    RunAppend(o, Boot(), actions, a);
  }

  lemma ReachableBoot(o: Settings)
    ensures Reachable(o, Boot())
  {
    assert Boot() == Run(o, Boot(), []);
  }

  lemma Step(o: Settings, s: State, a: Action) returns (r: State)
    requires Reachable(o, s)
    ensures r == Exec(o, s, a) && Reachable(o, r)
  {
    r := Exec(o, s, a);
    ReachableStep(o, s, a);
  }

  /** A fresh runtime, its node joined and the worker running. */
  lemma Launched(o: Settings) returns (s: State)
    ensures Reachable(o, s)
    ensures s == Boot().(background := true, f := Begun(Initial(), 0), world := Boot().world.(nextRuntime := 1))
  {
    ReachableBoot(o);
    s := Step(o, Boot(), Launch(EnterStart));
    s := Step(o, s, Launch(PublishRuntime));
    s := Step(o, s, Launch(FinishStart));
  }

  /** The same, after an identity collision and a second runtime that has not joined yet. */
  lemma Restarted(o: Settings) returns (s: State)
    ensures Reachable(o, s) && s.alive && s.background && s.op.Started? && s.op.rt == 1 && !s.op.recovering
    ensures s.f.runtime == Some(1) && s.f.tunDevice.None? && !s.f.retryLatestConfig
    ensures !s.token && s.signals == 0 && s.worker.Idle? && s.retry.NoRetry?
  {
    s := Launched(o);
    s := Step(o, s, Shut(EnterRecovery(0)));
    s := Step(o, s, Shut(Detach(true)));
    s := Step(o, s, Shut(CloseDetached));
    s := Step(o, s, Launch(AbortStart));
    s := Step(o, s, Launch(Report(Collision)));
    s := Step(o, s, Launch(EnterStart));
    s := Step(o, s, Launch(PublishRuntime));
  }

  /** The worker holds what the second runtime's node delivered when joining fails. */
  lemma JoinFailed(o: Settings, c: Config) returns (s: State)
    requires c.network == o.network
    ensures Reachable(o, s) && s.alive && s.background && s.op.Free? && !s.token && s.signals == 0
    ensures s.f.runtime.None? && s.f.tunDevice.None? && !s.f.retryLatestConfig
    ensures s.f.haveLatestConfig && s.f.latestConfig == c && s.worker == Holding(Snap(s.f).(runtime := Some(1)))
  {
    s := Restarted(o);
    s := Step(o, s, Callback(Store(1, c)));
    s := Step(o, s, Callback(Signal));
    s := Step(o, s, Loop(Wake));
    s := Step(o, s, Loop(Take));
    s := Step(o, s, Launch(WithdrawRuntime));
    s := Step(o, s, Launch(CloseWithdrawn));
  }

  /** Without a runtime a configuration can be lost: the node delivers it, the join then fails, and the worker
      gives it up without a record because the runtime in its snapshot is gone. */
  lemma LostWithoutRuntime(o: Settings, c: Config) returns (s: State)
    requires c.network == o.network
    ensures Reachable(o, s) && s.alive && s.op.Free? && s.f.runtime.None?
    ensures s.f.haveLatestConfig && s.f.latestConfig == c && !Served(s.f) && !UnderWay(s)
  {
    s := JoinFailed(o, c);
    s := Step(o, s, Apply(Lock(Worker)));
    s := Step(o, s, Apply(Check(None)));
    s := Step(o, s, Loop(Record));
  }

  /** A configuration delivered and taken by the worker, which then holds operationMu. */
  lemma Taken(o: Settings, s: State, c: Config) returns (r: State)
    requires Reachable(o, s) && s.alive && s.background && s.op.Free?
    requires s.f.runtime == Some(0) && s.worker.Idle? && s.signals == 0 && c.network == o.network
    ensures Reachable(o, r) && r.alive && r.background && r.signals == 0 && r.f == Stored(s.f, c)
    ensures r.op == Applying(Worker, Snap(r.f), Entered)
  {
    r := Step(o, s, Callback(Store(0, c)));
    r := Step(o, r, Callback(Signal));
    r := Step(o, r, Loop(Wake));
    r := Step(o, r, Loop(Take));
    r := Step(o, r, Apply(Lock(Worker)));
  }

  /** An apply that starts afresh, up to the point where its stack is ready. */
  lemma UpToStack(o: Settings, s: State, c: Config) returns (r: State)
    requires Reachable(o, s) && s.alive && s.op.Applying? && s.op == Applying(Worker, Snap(s.f), Entered)
    requires s.f.runtime == Some(0) && s.f.haveLatestConfig && s.f.latestConfig == c && c.addresses != []
    ensures Reachable(o, r) && r.op.Applying? && r == At(s, r.op.phase).(world := r.world) && r.op.phase.Made?
    ensures var w := r.op.phase.work; w.rt == 0 && w.oldDevice == s.f.tunDevice && w.oldConfig == s.f.config
  {
    r := Step(o, s, Apply(Check(None)));
    r := Step(o, r, Apply(Make(None, None)));
  }

  /** From there to the point where the link holds the new configuration. */
  lemma UpToLink(o: Settings, s: State, c: Config) returns (r: State)
    requires Reachable(o, s) && s.alive && s.op.Applying? && s.op.snap == Snap(s.f) && s.op.phase.Made?
    requires var w := s.op.phase.work; w.rt == 0 && w.oldDevice == s.f.tunDevice
    requires s.f.runtime == Some(0) && s.f.haveLatestConfig && s.f.latestConfig == c
    ensures Reachable(o, r) && r.op.Applying? && r == At(s, Linked(s.op.phase.work)).(world := r.world)
    ensures LinkHolds(o, r.world.links, 0, c)
  {
    r := Step(o, s, Apply(Confirm));
    r := Step(o, r, Apply(Recheck));
    r := Step(o, r, Apply(MutateLink(None)));
  }

  lemma Serving(o: Settings, c: Config) returns (s: State)
    requires c.network == o.network && c.addresses != []
    ensures Reachable(o, s) && s.alive && s.background && s.op.Free? && s.worker.Idle? && s.signals == 0
    ensures s.f.runtime == Some(0) && s.f.tunDevice.Some? && s.f.config == c
  {
    s := Launched(o);
    s := Taken(o, s, c);
    s := UpToStack(o, s, c);
    s := UpToLink(o, s, c);
    s := Step(o, s, Apply(Publish));
    s := Step(o, s, Apply(Replace));
  }

  /** After a rollback that fails, the link may hold another configuration than the one published: c1 is
      served, c2 is on the link when c3 arrives, and restoring c1 fails. */
  lemma FailedRollbackDeviates(o: Settings, c1: Config, c2: Config, c3: Config) returns (s: State)
    requires c1.network == c2.network == c3.network == o.network
    requires c1.addresses != [] && c2.addresses != [] && c2 != c3 && LinkConfig(o, c1) != LinkConfig(o, c2)
    ensures Reachable(o, s) && s.op.Free? && s.f.tunDevice.Some? && s.f.runtime == Some(0) && s.f.config == c1
    ensures !LinkHolds(o, s.world.links, 0, s.f.config)
  {
    s := Serving(o, c1);
    s := Taken(o, s, c2);
    s := UpToStack(o, s, c2);
    s := UpToLink(o, s, c2);
    s := Step(o, s, Callback(Store(0, c3)));
    s := Step(o, s, Apply(Publish));
    s := Step(o, s, Apply(Rollback(false)));
  }
}
