/** The fields that stateMu guards in the ZeroTier outbound (adapter/outbound/zerotier.go), and what each
    critical section does to them. Runtimes and stacks are identified by numbers given out at creation. */
module ZeroTierFields {
  import opened Options

  datatype Config = Config(network: nat, addresses: seq<nat>, mtu: nat, dns: seq<nat>, rest: nat)

  const NO_CONFIG := Config(0, [], 0, [], 0)

  /** A user-space IP stack, with what it was built for. */
  datatype Stack = Stack(id: nat, addresses: seq<nat>, mtu: nat)

  datatype Failure = OutboundClosed | Collision | NotStarted | NoAddresses | External(code: nat)

  /** `notifications` counts how often the state channel was closed and replaced. */
  datatype Fields = Fields(
    runtime: Option<nat>,
    config: Config,
    tunDevice: Option<Stack>,
    resolver: Option<Config>,
    networkErr: Option<Failure>,
    notifications: nat,
    latestConfig: Config,
    haveLatestConfig: bool,
    retryLatestConfig: bool,
    networkRetrying: bool,
    authURL: Option<nat>,
    configGeneration: nat)

  /** What a worker or a retry copies out before it takes operationMu. */
  datatype Snapshot = Snapshot(runtime: Option<nat>, config: Config, have: bool, generation: nat)

  function Initial(): Fields {
    Fields(None, NO_CONFIG, None, None, None, 0, NO_CONFIG, false, false, false, None, 0)
  }

  function Snap(f: Fields): Snapshot {
    Snapshot(f.runtime, f.latestConfig, f.haveLatestConfig, f.configGeneration)
  }

  /** configSnapshotCurrentLocked */
  predicate Current(f: Fields, s: Snapshot) {
    && f.configGeneration == s.generation && f.runtime == s.runtime && f.haveLatestConfig == s.have
    && (s.have ==> f.latestConfig == s.config)
  }

  /** networkConfigCurrentLocked, as used by an apply of `s` under runtime `rt`. */
  predicate StillWanted(f: Fields, rt: Option<nat>, s: Snapshot) {
    Current(f, s.(runtime := rt, have := true))
  }

  function Detached(f: Fields): Fields {
    f.(tunDevice := None, resolver := None)
  }

  function Reset(f: Fields, err: Option<Failure>): Fields {
    f.(config := NO_CONFIG, latestConfig := NO_CONFIG, haveLatestConfig := false, retryLatestConfig := false,
       networkErr := err, authURL := None, configGeneration := f.configGeneration + 1,
       notifications := f.notifications + 1)
  }

  function Failed(f: Fields, err: Option<Failure>, authURL: Option<nat>, retryConfig: bool): Fields {
    f.(networkErr := err, authURL := authURL, retryLatestConfig := retryConfig && f.haveLatestConfig,
       notifications := f.notifications + 1)
  }

  function Stored(f: Fields, config: Config): Fields {
    f.(latestConfig := config, haveLatestConfig := true)
  }

  function Retired(f: Fields, err: Option<Failure>): Fields {
    Reset(Detached(f).(runtime := None), err)
  }

  function Begun(f: Fields, rt: nat): Fields {
    Reset(f.(runtime := Some(rt)), None)
  }

  function Withdrawn(f: Fields, rt: nat): Fields {
    if f.runtime == Some(rt) then f.(runtime := None) else f
  }

  function Invalidated(f: Fields, err: Option<Failure>, authURL: Option<nat>, retryConfig: bool): Fields {
    var kept := if retryConfig then Detached(f) else Detached(f).(latestConfig := NO_CONFIG, haveLatestConfig := false);
    Failed(kept.(configGeneration := f.configGeneration + 1), err, authURL, retryConfig)
  }

  function Broken(f: Fields, err: Failure): Fields {
    Failed(Detached(f), Some(err), f.authURL, true)
  }

  function Published(f: Fields, config: Config, device: Stack, resolver: Option<Config>): Fields {
    f.(config := config, tunDevice := Some(device), resolver := resolver, networkErr := None, authURL := None,
       retryLatestConfig := false, configGeneration := f.configGeneration + 1, notifications := f.notifications + 1)
  }

  /** retryNetwork goes ahead only while nothing is served or a failure is recorded, and alone. */
  predicate WantsRetry(f: Fields) {
    !(f.tunDevice.Some? && f.networkErr.None?) && !f.networkRetrying
  }

  function RetryBegun(f: Fields): Fields {
    f.(networkRetrying := true, networkErr := None)
  }

  function RefreshFailed(f: Fields, err: Failure): Fields {
    Failed(f, Some(err), f.authURL, f.retryLatestConfig)
  }

  /** No runtime, no stack; no stack, no resolver; and a retry is only due for a configuration that is there. */
  predicate Consistent(f: Fields) {
    && (f.runtime.None? ==> f.tunDevice.None?)
    && (f.tunDevice.None? ==> f.resolver.None?)
    && (f.retryLatestConfig ==> f.haveLatestConfig)
  }

  /** Every snapshot that could have been taken up to `f` is outdated in `g`. */
  ghost predicate Outdates(f: Fields, g: Fields) {
    forall s: Snapshot | s.generation <= f.configGeneration :: !Current(g, s)
  }

  /** `g` accepts exactly the snapshots that `f` does. */
  ghost predicate SameCurrency(f: Fields, g: Fields) {
    forall s: Snapshot :: Current(g, s) <==> Current(f, s)
  }

  /** The outbound's own record, changed field by field. Each method is one critical section of stateMu, and takes
      the record through the same function as the step of the protocol that stands for it; `alive` is whether the
      outbound's context is still uncancelled. */
  class Shared {
    ghost predicate Valid()
      reads this
    {
      Consistent(View())
    }

    var runtime: Option<nat>
    var config: Config
    var tunDevice: Option<Stack>
    var resolver: Option<Config>
    var networkErr: Option<Failure>
    var notifications: nat
    var latestConfig: Config
    var haveLatestConfig: bool
    var retryLatestConfig: bool
    var networkRetrying: bool
    var authURL: Option<nat>
    var configGeneration: nat

    function View(): Fields
      reads this
    {
      Fields(runtime, config, tunDevice, resolver, networkErr, notifications, latestConfig, haveLatestConfig,
             retryLatestConfig, networkRetrying, authURL, configGeneration)
    }

    constructor ()
      ensures Valid() && View() == Initial()
    {
      runtime, config, tunDevice, resolver, networkErr := None, NO_CONFIG, None, None, None;
      notifications, latestConfig, haveLatestConfig, retryLatestConfig := 0, NO_CONFIG, false, false;
      networkRetrying, authURL, configGeneration := false, None, 0;
    }

    method NotifyStateLocked()
      modifies this
      ensures View() == old(View()).(notifications := old(notifications) + 1)
    {
      notifications := notifications + 1;
    }

    method DetachStackLocked() returns (device: Option<Stack>)
      modifies this
      ensures old(Valid()) ==> Valid()
      ensures device == old(tunDevice) && View() == Detached(old(View()))
    {
      device := tunDevice;
      tunDevice := None;
      resolver := None;
    }

    /** Whatever a worker or a retry has in hand is outdated, and nothing is left to apply. */
    method ResetNetworkStateLocked(err: Option<Failure>)
      modifies this
      ensures old(Valid()) ==> Valid()
      ensures Outdates(old(View()), View()) && !haveLatestConfig && !retryLatestConfig
      ensures View() == Reset(old(View()), err)
    {
      config := NO_CONFIG;
      latestConfig := NO_CONFIG;
      haveLatestConfig := false;
      retryLatestConfig := false;
      networkErr := err;
      authURL := None;
      configGeneration := configGeneration + 1;
      NotifyStateLocked();
    }

    method SetNetworkFailureLocked(err: Option<Failure>, url: Option<nat>, retryConfig: bool)
      modifies this
      ensures old(Valid()) ==> Valid()
      ensures SameCurrency(old(View()), View())
      ensures View() == Failed(old(View()), err, url, retryConfig)
    {
      networkErr := err;
      authURL := url;
      retryLatestConfig := retryConfig && haveLatestConfig;
      NotifyStateLocked();
    }

    /** The publication of a new runtime in startLocked. */
    method BeginRuntime(rt: nat)
      requires Valid() && runtime.None?
      modifies this
      ensures Valid() && Outdates(old(View()), View())
      ensures View() == Begun(old(View()), rt)
    {
      runtime := Some(rt);
      ResetNetworkStateLocked(None);
    }

    /** The cleanup of a failed start. Neither configuration nor generation is touched: what the node delivered
        stays stored, but no snapshot that names its runtime is current any more. */
    method WithdrawRuntime(rt: nat)
      requires Valid() && tunDevice.None?
      modifies this
      ensures Valid() && forall s: Snapshot | Current(View(), s) :: s.runtime != Some(rt)
      ensures View() == Withdrawn(old(View()), rt)
    {
      if runtime == Some(rt) {
        runtime := None;
      }
    }

    /** The detachment in recoverIdentityCollision and Close. Hands out what must be closed; from then on no source
        is current and no earlier snapshot is. */
    method RetireRuntime(err: Option<Failure>) returns (rt: Option<nat>, device: Option<Stack>)
      requires Valid()
      modifies this
      ensures Valid() && Outdates(old(View()), View())
      ensures runtime.None? && tunDevice.None? && resolver.None? && (device.Some? ==> rt.Some?)
      ensures rt == old(runtime) && device == old(tunDevice) && View() == Retired(old(View()), err)
    {
      rt := runtime;
      device := DetachStackLocked();
      runtime := None;
      ResetNetworkStateLocked(err);
    }

    /** The storing half of enqueueNetworkConfig. From then on only snapshots that carry the accepted configuration
        are current; a refused one changes the currency of none. */
    method StoreConfig(alive: bool, source: nat, accepted: Config) returns (stored: bool)
      requires Valid()
      modifies this
      ensures Valid()
      ensures stored ==> forall s: Snapshot | Current(View(), s) :: s.have && s.config == accepted && s.runtime == Some(source)
      ensures !stored ==> SameCurrency(old(View()), View())
      ensures stored == (alive && old(runtime) == Some(source))
      ensures View() == if stored then Stored(old(View()), accepted) else old(View())
    {
      stored := alive && runtime == Some(source);
      if stored {
        latestConfig := accepted;
        haveLatestConfig := true;
      }
    }

    method TakeSnapshot() returns (s: Snapshot)
      ensures s == Snap(View()) && Current(View(), s)
    {
      s := Snapshot(runtime, latestConfig, haveLatestConfig, configGeneration);
    }

    /** A recorded failure leaves a retry due that begins with the very same configuration. */
    method RecordConfigFailure(alive: bool, s: Snapshot, err: Failure) returns (recorded: bool)
      requires Valid()
      modifies this
      ensures Valid() && SameCurrency(old(View()), View())
      ensures recorded ==> retryLatestConfig && latestConfig == s.config && (!networkRetrying ==> WantsRetry(View()))
      ensures recorded == (alive && Current(old(View()), s.(have := true)))
      ensures View() == if recorded then Failed(old(View()), Some(err), old(authURL), true) else old(View())
    {
      recorded := alive && Current(View(), s.(have := true));
      if recorded {
        SetNetworkFailureLocked(Some(err), authURL, true);
      }
    }

    method InvalidateNetwork(alive: bool, source: Option<nat>, err: Option<Failure>, url: Option<nat>, retryConfig: bool)
      returns (device: Option<Stack>)
      requires Valid()
      modifies this
      ensures Valid()
      ensures alive && (source.Some? ==> old(runtime) == source) ==>
        && Outdates(old(View()), View()) && tunDevice.None?
        && (if retryConfig then retryLatestConfig == haveLatestConfig else !haveLatestConfig && !retryLatestConfig)
      ensures var applies := alive && (source.Some? ==> old(runtime) == source);
              device == (if applies then old(tunDevice) else None)
              && View() == if applies then Invalidated(old(View()), err, url, retryConfig) else old(View())
    {
      if !alive || (source.Some? && runtime != source) {
        return None;
      }
      device := DetachStackLocked();
      if !retryConfig {
        latestConfig := NO_CONFIG;
        haveLatestConfig := false;
      }
      configGeneration := configGeneration + 1;
      SetNetworkFailureLocked(err, url, retryConfig);
    }

    /** A failing device takes only itself down: snapshots stay current, and what it served is to be retried. */
    method InvalidateDevice(alive: bool, id: nat, err: Failure) returns (done: bool)
      requires Valid()
      modifies this
      ensures Valid() && SameCurrency(old(View()), View())
      ensures done ==> tunDevice.None? && retryLatestConfig == haveLatestConfig && (!networkRetrying ==> WantsRetry(View()))
      ensures !(alive && tunDevice.Some? && tunDevice.value.id == id)
      ensures done == (alive && old(tunDevice).Some? && old(tunDevice).value.id == id)
      ensures View() == if done then Broken(old(View()), err) else old(View())
    {
      done := alive && tunDevice.Some? && tunDevice.value.id == id;
      if done {
        var device := DetachStackLocked();
        SetNetworkFailureLocked(Some(err), authURL, true);
      }
    }

    /** The last critical section of applyNetworkConfig. */
    method Publish(s: Snapshot, rt: nat, oldDevice: Option<Stack>, device: Stack, remoteResolver: Option<Config>)
      returns (published: bool)
      requires Valid()
      modifies this
      ensures Valid()
      ensures published ==> Outdates(old(View()), View()) && runtime == Some(rt) && latestConfig == config && !WantsRetry(View())
      ensures published == (old(tunDevice) == oldDevice && StillWanted(old(View()), Some(rt), s))
      ensures View() == if published then Published(old(View()), s.config, device, remoteResolver) else old(View())
    {
      published := tunDevice == oldDevice && StillWanted(View(), Some(rt), s);
      if published {
        config := s.config;
        tunDevice := Some(device);
        resolver := remoteResolver;
        networkErr := None;
        authURL := None;
        retryLatestConfig := false;
        configGeneration := configGeneration + 1;
        NotifyStateLocked();
      }
    }

    /** The first critical section of retryNetwork; `retryConfig` is whether the stored config is applied again.
        The snapshot is current in the record left behind, and no second retry begins before this one has ended. */
    method BeginRetry(alive: bool) returns (begun: bool, s: Snapshot, retryConfig: bool)
      requires Valid()
      modifies this
      ensures Valid() && SameCurrency(old(View()), View()) && Current(View(), s)
      ensures begun ==> !WantsRetry(View())
      ensures retryConfig ==> s.have
      ensures begun == (alive && WantsRetry(old(View())))
      ensures s == Snap(old(View())) && retryConfig == (old(retryLatestConfig) && old(haveLatestConfig))
      ensures View() == if begun then RetryBegun(old(View())) else old(View())
    {
      begun := alive && WantsRetry(View());
      s := Snapshot(runtime, latestConfig, haveLatestConfig, configGeneration);
      retryConfig := retryLatestConfig && haveLatestConfig;
      if begun {
        networkRetrying := true;
        networkErr := None;
      }
    }

    /** The critical section after a failed refresh or rejoin. */
    method RecordRefreshFailure(alive: bool, s: Snapshot, err: Failure)
      requires Valid()
      modifies this
      ensures Valid() && SameCurrency(old(View()), View())
      ensures View() == if alive && Current(old(View()), s) then RefreshFailed(old(View()), err) else old(View())
    {
      if alive && Current(View(), s) {
        SetNetworkFailureLocked(Some(err), authURL, retryLatestConfig);
      }
    }
  }
}
