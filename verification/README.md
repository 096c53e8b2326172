# Verification of the mihomo kernel's hard logic

This project models, in Dafny, the parts of the Android client's vendored Go kernel in which a mistake is easiest to
make and hardest to see, and proves what they promise for all inputs, all runs and all interleavings.

| file | models |
|---|---|
| `ZeroTierFields.dfy`, `ZeroTierProtocol.dfy`, `ZeroTierInvariants.dfy`, `ZeroTier.dfy` | the ZeroTier outbound: the record guarded by `stateMu` as a class with one method per critical section; node callbacks, worker, retries, `applyNetworkConfig`, start, identity recovery and `Close` as atomic steps of a state machine; its invariants; the results |
| `Graph.dfy`, `GroupSort.dfy`, `DialerProxies.dfy`, `SubRules.dfy` | the reference checks of a configuration: the in-place sort of proxy groups with its loop report, dialer-proxy chains, sub-rules and their evaluation |
| `Routing.dfy`, `ResolveOnce.dfy` | rule matching with rematch restarts, and the memoised address lookup of the rules |
| `DnsClients.dfy`, `DnsTtl.dfy` | sharing of DNS clients, and time-to-live arithmetic of cached answers |
| `PacketSender.dfy` | the per-flow UDP queue and its address mapping |
| `GroupProxies.dfy`, `LoadBalance.dfy` | a group's cached proxy list, jump hashing, consistent hashing, round robin |
| `TunSession.dfy` | TUN sessions and their callbacks |
| `SocksAddr.dfy` | the SOCKS5 address codec of RFC 1928, section 5 |

Where the source interleaves threads, a step of the model is one critical section, one channel operation or one call
into a foreign object; `Run` takes any sequence of steps, and a step that is not enabled leaves the state as it is.
Foreign calls, clocks and parsers are parameters.

## Where the code does not keep a promise as stated

- A configuration can be lost in exactly one step: when joining fails after the node delivered a configuration, the
  runtime is withdrawn, and if by then only a snapshot of the worker stands for the configuration, its failure is no
  longer recorded (`ZeroTier.LostExactlyAtWithdrawal`; reachable by `ZeroTier.LostWithoutRuntime`). Runs without that
  step lose nothing (`ZeroTier.RunKeepsExactly`), states with a runtime never have lost anything
  (`ZeroTier.NoLostConfiguration`), and the next runtime starts without the configuration anyway
  (`ZeroTier.RuntimeAfterRetirement`).
- The IP link can deviate from the published configuration after a rollback that itself fails
  (`ZeroTier.RollbackAgreesExactly` says when, `ZeroTier.FailedRollbackDeviates` that it happens); `linkTrusted` in the
  model marks those runs, until the next publication.
- `packetSender.Close` can leave a packet in the queue, never processed and never dropped, exactly if a `Send` is past
  its first `select` at that moment (`PacketSender.CloseIsCleanIff`, `PacketSender.LeftBehindForGood`).
- `GetProxies` returns an empty list, not the fallback, exactly for a group without providers
  (`GroupProxies.GroupBase.GetProxies`).
- The SOCKS parser adds offsets in bytes, so long host names do not survive; the exact conditions are
  `SocksAddr.Survives` and `SocksAddr.Reprints`.
- The caches keep an expiry in whole Unix seconds, so the least TTL of a served section can be one second short of the
  time that is left (`DnsTtl.ServedLeastIsRemaining` says exactly when, `DnsTtl.HalfSecondCostsOne` is an input).
- If an answer expires between the two clock reads of a cache hit, a record can be served with more than its stored
  TTL less the elapsed time (`DnsTtl.ServedNeverOutlives` says exactly when, `DnsTtl.RacedAnswerOutlives` is an input).

## Model

| member | source | states |
|---|---|---|
| `ZeroTier.LostExactlyAtWithdrawal` | kernel-core/src/foss/golang/clash/adapter/outbound/zerotier.go:546-577 | Exactly one step takes a reachable state in which the latest accepted configuration is served or under way to one in which it is neither: the cleanup of a failed start withdrawing its runtime while no token, signal, woken worker or due retry is there (the worker holds at most a snapshot that names the withdrawn runtime). |
| `ZeroTier.RunKeepsExactly` | kernel-core/src/foss/golang/clash/adapter/outbound/zerotier.go:579-655 | A run keeps every accepted configuration served or under way, in all its states, exactly if it never takes that step, with or without a runtime. |
| `ZeroTier.NothingLostFromBoot` | kernel-core/src/foss/golang/clash/adapter/outbound/zerotier.go:579-655 | The same for every run of a fresh outbound. |
| `ZeroTier.NoLostConfiguration` | kernel-core/src/foss/golang/clash/adapter/outbound/zerotier.go:579-655 | While a runtime is up this holds in every reachable state of every run, whatever steps were taken: served by a live stack, or a token, an enqueuer before its signal, a woken worker, a worker holding a current snapshot, or a due retry; and the configuration came from the current runtime's node. |
| `ZeroTier.LostWithoutRuntime` | kernel-core/src/foss/golang/clash/adapter/outbound/zerotier.go:880-891 | The losing step is reachable for every setting and configuration; the worker then gives the snapshot up without a record. |
| `ZeroTier.DataPlaneAgreement` | kernel-core/src/foss/golang/clash/adapter/outbound/zerotier.go:934-1056 | Whenever operationMu is free and a stack is current: a never-closed runtime is up, stack addresses, stack MTU, resolver and (unless a rollback failed) the IP link all stem from the published configuration, and the stack was never closed. |
| `ZeroTier.ServedMTU` | kernel-core/src/foss/golang/clash/adapter/outbound/zerotier.go:1042-1056 | The MTU a current stack really has: never above the user's limit, and the delivered value, the library's bound or its default where that is not above the limit. |
| `ZeroTier.LinkFollowsStack` | kernel-core/src/foss/golang/clash/adapter/outbound/zerotier.go:988-997 | A trusted link holds the published configuration as it is, at the MTU of the current stack. |
| `ZeroTier.ResolverPublished` | kernel-core/src/foss/golang/clash/adapter/outbound/zerotier.go:1058-1086 | A resolver is published exactly if remote DNS is on and the user or the controller names a server, and it is the published configuration's. |
| `ZeroTier.CheckErrorsReported` | kernel-core/src/foss/golang/clash/adapter/outbound/zerotier.go:935-962 | A cancelled context, a missing runtime, a configuration without addresses and a bad resolver each reach the caller as their own error and leave the record alone. |
| `ZeroTier.StackErrorsReported` | kernel-core/src/foss/golang/clash/adapter/outbound/zerotier.go:963-975 | A stack is made exactly where the current one was built for other addresses or another MTU; failing to create or start it reaches the caller, and what was created is closed once. |
| `ZeroTier.CancelledStackClosed` | kernel-core/src/foss/golang/clash/adapter/outbound/zerotier.go:976-980 | A stack made for a context cancelled meanwhile is closed once and the apply ends with that error. |
| `ZeroTier.LinkErrorReported` | kernel-core/src/foss/golang/clash/adapter/outbound/zerotier.go:990-996 | A link that refuses keeps what it held, its error reaches the caller, and the stack made for it is closed once. |
| `ZeroTier.PublishedEnds` | kernel-core/src/foss/golang/clash/adapter/outbound/zerotier.go:1020-1032 | A published apply ends the retry it served, without a refresh. |
| `ZeroTier.OvertakenEnds` | kernel-core/src/foss/golang/clash/adapter/outbound/zerotier.go:982-989 | An apply overtaken before the link was changed ends silently, and a retry goes on to refresh the node. |
| `ZeroTier.RolledBackEnds` | kernel-core/src/foss/golang/clash/adapter/outbound/zerotier.go:996-1011 | The same after the link was changed and rolled back, whether or not that worked. |
| `ZeroTier.RollbackAgreesExactly` | kernel-core/src/foss/golang/clash/adapter/outbound/zerotier.go:994-1010 | After a rollback with a stack still current, the link holds the published configuration exactly if restoring it worked or both configurations put the same on the link. |
| `ZeroTier.FailedRollbackDeviates` | kernel-core/src/foss/golang/clash/adapter/outbound/zerotier.go:994-1010 | The exception is reachable: for any three suitable configurations a run with a failed rollback ends with the link holding another configuration than the published one. |
| `ZeroTier.StackConservation` | kernel-core/src/foss/golang/clash/adapter/outbound/zerotier.go:375-446 | Over all interleavings each stack ever created has exactly one owner (current, in-flight operation, the Close call, or closed once) and no other stack is known; nothing is closed twice. |
| `ZeroTier.RuntimeConservation` | kernel-core/src/foss/golang/clash/adapter/outbound/zerotier.go:412-446 | The same for runtimes. |
| `ZeroTier.PublicationIsLatest` | kernel-core/src/foss/golang/clash/adapter/outbound/zerotier.go:994-1020 | Every step leaves configuration and stack alone or takes the stack down, unless it brings up the latest configuration accepted from the current runtime, with stack, resolver and link made for it, clears the failure and retry flags, and spends the snapshot's generation. |
| `ZeroTier.SnapshotSpentOnce` | kernel-core/src/foss/golang/clash/adapter/outbound/zerotier.go:1034-1040 | Published generations strictly increase, and a snapshot of a published generation never passes the currency check again. |
| `ZeroTier.RuntimeAfterRetirement` | kernel-core/src/foss/golang/clash/adapter/outbound/zerotier.go:448-577 | A runtime appears only on an open outbound, only after every earlier runtime was closed exactly once, and starts without any configuration of an earlier one. |
| `ZeroTier.StartsOnlyAlive` | kernel-core/src/foss/golang/clash/adapter/outbound/zerotier.go:454-470 | No start begins on a cancelled or closed outbound or beside a runtime, and a restart after a collision only where the identity may change. |
| `ZeroTier.RetryBeginsExactly` | kernel-core/src/foss/golang/clash/adapter/outbound/zerotier.go:817-839 | A retry begins exactly while none runs and no healthy stack is served, and takes the due configuration if there is one. |
| `ZeroTier.EndsAreRecorded` | kernel-core/src/foss/golang/clash/adapter/outbound/zerotier.go:781-815 | A collision of a configured identity, a failed restart and the end of the outbound are what waiting dialers are told. |
| `ZeroTier.NetworkFailureRecorded` | kernel-core/src/foss/golang/clash/adapter/outbound/zerotier.go:893-919 | A failure from the current runtime's node takes the stack down and closes it once, is recorded with the address for authorisation, and leaves nothing to apply; another node's changes nothing. |
| `ZeroTier.DeviceFailureRecorded` | kernel-core/src/foss/golang/clash/adapter/outbound/zerotier.go:921-932 | A failing device that is current is taken down, closed once and recorded, and its configuration is due for a retry; any other changes nothing. |
| `ZeroTier.ComplaintsRecorded` | kernel-core/src/foss/golang/clash/adapter/outbound/zerotier.go:880-891 | What a worker or a retry was told is recorded exactly while its snapshot is current under a live context. |
| `ZeroTier.ClosedForever` | kernel-core/src/foss/golang/clash/adapter/outbound/zerotier.go:1341-1369 | After Close, no run ever has a runtime or a stack again. |
| `ZeroTier.GenerationsGrow` | kernel-core/src/foss/golang/clash/adapter/outbound/zerotier.go:382-392 | Along any run generation, notifications and identifiers never decrease, and cancellation and closing are final. |
| `ZeroTier.NoMissedWakeup` | kernel-core/src/foss/golang/clash/adapter/outbound/zerotier.go:601-631 | A dialer parked on the state channel of the current notification count has nothing to be told: no stack is up and no failure is recorded. |
| `ZeroTierInvariants.InvKept` | kernel-core/src/foss/golang/clash/adapter/outbound/zerotier.go:579-1040 | Every action (callback, worker, retry, apply, start, recovery, Close) keeps the invariant behind the results above. |
| `ZeroTierInvariants.StackKept` | kernel-core/src/foss/golang/clash/adapter/outbound/zerotier.go:893-1032 | Every action keeps the one-owner account of each stack. |
| `ZeroTierInvariants.RuntimeKept` | kernel-core/src/foss/golang/clash/adapter/outbound/zerotier.go:448-577 | Every action keeps the one-owner account of each runtime. |
| `ZeroTierInvariants.PublishKeeps` | kernel-core/src/foss/golang/clash/adapter/outbound/zerotier.go:994-1032 | The last check of an apply publishes or turns stale without breaking agreement, ownership or the wake-up argument. |
| `ZeroTierInvariants.RollbackKeeps` | kernel-core/src/foss/golang/clash/adapter/outbound/zerotier.go:1005-1019 | Rolling back a stale apply restores agreement with the configuration still published, whichever failure made it stale. |
| `ZeroTierInvariants.RecordLeavesRetry` | kernel-core/src/foss/golang/clash/adapter/outbound/zerotier.go:880-891 | A worker that gives up a snapshot which is still current leaves a due retry for that very configuration; an outdated one leaves the record alone. |
| `ZeroTier.RecordIsConsistent` | kernel-core/src/foss/golang/clash/adapter/outbound/zerotier.go:375-399 | In every reachable state there is no stack without a runtime, no resolver without a stack, and no due retry without a configuration: what the methods on the record require. |
| `ZeroTierInvariants.OnlyLaunchStarts` | kernel-core/src/foss/golang/clash/adapter/outbound/zerotier.go:454-577 | No action but the publication in a start brings a runtime up. |
| `ZeroTierInvariants.OnlyPublishPublishes` | kernel-core/src/foss/golang/clash/adapter/outbound/zerotier.go:934-1032 | No action but a publication brings a stack or configuration up or spends a generation. |
| `ZeroTierFields.Shared.ResetNetworkStateLocked` | kernel-core/src/foss/golang/clash/adapter/outbound/zerotier.go:382-392 | Afterwards no snapshot taken so far passes the currency check, and nothing is stored or due. |
| `ZeroTierFields.Shared.RetireRuntime` | kernel-core/src/foss/golang/clash/adapter/outbound/zerotier.go:412-419 | Hands out what must be closed, keeps the record consistent, and leaves no earlier snapshot current. |
| `ZeroTierFields.Shared.StoreConfig` | kernel-core/src/foss/golang/clash/adapter/outbound/zerotier.go:579-599 | After storing, only snapshots that carry the accepted configuration and name its source are current; a refusal changes the currency of no snapshot. |
| `ZeroTierFields.Shared.RecordConfigFailure` | kernel-core/src/foss/golang/clash/adapter/outbound/zerotier.go:880-891 | The currency of every snapshot is kept; a recorded failure leaves a retry due that will be begun and that starts with the same configuration. |
| `ZeroTierFields.Shared.InvalidateNetwork` | kernel-core/src/foss/golang/clash/adapter/outbound/zerotier.go:893-919 | When it applies, no snapshot taken so far is current, no stack is, and a retry is due exactly if a configuration was to be kept and is there. |
| `ZeroTierFields.Shared.InvalidateDevice` | kernel-core/src/foss/golang/clash/adapter/outbound/zerotier.go:921-932 | Under a live context the failed device is never current afterwards; snapshots keep their currency and what was served is to be retried. |
| `ZeroTierFields.Shared.Publish` | kernel-core/src/foss/golang/clash/adapter/outbound/zerotier.go:994-1020 | A publication under the runtime it was made for leaves the latest configuration published and no snapshot current that was taken so far, its own included, and no retry wanted. |
| `ZeroTierFields.Shared.BeginRetry` | kernel-core/src/foss/golang/clash/adapter/outbound/zerotier.go:817-839 | The snapshot handed out is current in the record left behind, every snapshot keeps its currency, and no second retry can begin. |
| `ZeroTierFields.Shared.WithdrawRuntime` | kernel-core/src/foss/golang/clash/adapter/outbound/zerotier.go:550-558 | No snapshot naming the withdrawn runtime is current any more, although the stored configuration stays. |
| `GroupSort.ProxyGroupsDagSort` | kernel-core/src/foss/golang/clash/config/utils.go:18-146 | Duplicate exactly for repeated names (array untouched); Sorted exactly for an acyclic member graph, and then the array is a permutation in which every group follows all groups it lists; otherwise the reported names are non-empty, distinct and exactly those reachable from a cycle and reaching one. |
| `GroupSort.BuildGraph` | kernel-core/src/foss/golang/clash/config/utils.go:34-59 | The graph's nodes are the group and member names, its indegrees count listings with multiplicity; a duplicate is found exactly if there is one. |
| `GroupSort.TopologicalPeel` | kernel-core/src/foss/golang/clash/config/utils.go:60-91 | The first peel keeps the indegree account, removes names only after their predecessors, fills the array from the back, and stops only when every remaining node has an incoming edge. |
| `GroupSort.InDegreeRemove` | kernel-core/src/foss/golang/clash/config/utils.go:82-91 | Removing a group lowers each indegree by exactly its number of listings. |
| `GroupSort.LocateLoops` | kernel-core/src/foss/golang/clash/config/utils.go:98-144 | The second peel leaves exactly the names between two cycles, at least one, and never looks up a deleted node. |
| `GroupSort.AllPlaced` | kernel-core/src/foss/golang/clash/config/utils.go:71-96 | When everything was peeled, the slots are a permutation of the groups in dependency order. |
| `GroupSort.BuildGroups` | kernel-core/src/foss/golang/clash/config/config.go:953-965 | On a sorted list the sequential build never misses a member that exists later in the list: it completes exactly when every listed name exists at all and no group name is taken; a member reported missing exists nowhere, a name reported taken is. |
| `Graph.PeelExact` | kernel-core/src/foss/golang/clash/config/utils.go:60-91 | What a maximal peel leaves is exactly what is reachable from a cycle. |
| `Graph.PeelBothWays` | kernel-core/src/foss/golang/clash/config/utils.go:98-144 | Peeling the remainder against the edges leaves exactly the names between two cycles. |
| `DialerProxies.ValidateDialerProxies` | kernel-core/src/foss/golang/clash/config/utils.go:148-186 | NotFound exactly when some dialer-proxy dangles (and then a dangling one is named); Valid exactly when none dangles and no chain cycles; a Circular name does run into a cycle; at most one colouring per proxy overall. |
| `DialerProxies.WalkChain` | kernel-core/src/foss/golang/clash/config/utils.go:171-183 | One walk blackens its path or finds that the start runs into a cycle; earlier verdicts are kept. |
| `SubRules.VerifySubRule` | kernel-core/src/foss/golang/clash/config/config.go:1059-1096 | Ok exactly when no sub-rule reference dangles and the call graph is acyclic; a refusal names a dangling target or a real cycle path. |
| `SubRules.VerifyBlames` | kernel-core/src/foss/golang/clash/config/config.go:1069-1096 | Whatever the recursion refuses is a dangling reference or a walk that closes a cycle. |
| `SubRules.VerifiedWalk` | kernel-core/src/foss/golang/clash/config/config.go:1069-1096 | A list that passes has no call walk back onto its own path. |
| `SubRules.EvaluateIsFlatScan` | kernel-core/src/foss/golang/clash/rules/logic/logic.go:179-205 | Evaluating a verified sub-rule list terminates and gives the first adapter not passed over in the flattened sequence of matches. |
| `SubRules.EvaluateIsFirst` | kernel-core/src/foss/golang/clash/rules/logic/logic.go:179-200 | Evaluation gives the first adapter, in reading order of the nested lists, that a plain rule yields under conditions that all hold and that is not passed over; none exactly if there is none. |
| `Routing.Match` | kernel-core/src/foss/golang/clash/tunnel/tunnel.go:654-711 | The loop terminates and its adapter, deciding rule and final metadata are those of the recursive first-settling-rule specification. |
| `Routing.RouteIsFirstChoice` | kernel-core/src/foss/golang/clash/tunnel/tunnel.go:654-711 | In terms of the kinds on unwrap chains: the decision comes from the first rule of the list in force whose adapter is known, whose chain does not meet PASS first, and which carries UDP if the flow is UDP; its chain meets neither PASS nor REMATCH, or the decision is the rematch proxy met first, whose name was taken before; without such a rule it is DIRECT. The metadata was reached through rematch proxies of distinct names, each met the same way. |
| `Routing.ChainAt` | kernel-core/src/foss/golang/clash/tunnel/tunnel.go:692-708 | Each rematch proxy taken is what the first settling rule meets under the metadata left by those before it. |
| `Routing.Nested` | kernel-core/src/foss/golang/clash/tunnel/tunnel.go:670-682 | The unwrap walk terminates on a sorted group configuration and finds the first PASS or REMATCH. |
| `Routing.FateByKinds` | kernel-core/src/foss/golang/clash/tunnel/tunnel.go:670-682 | The walk passes an adapter exactly if PASS is the first PASS or REMATCH on its unwrap chain, rematches with the first exactly if that is a REMATCH, and keeps it exactly if there is neither. |
| `Routing.SettlesUnlessPasses` | kernel-core/src/foss/golang/clash/tunnel/tunnel.go:663-690 | A rule settles a round unless it yields no known adapter, or one whose chain meets PASS first, or an unmarked one without UDP support on a UDP flow. |
| `Routing.PassRuleByKinds` | kernel-core/src/foss/golang/clash/tunnel/tunnel.go:380-391 | CheckPassRule holds exactly if a PASS-RULE adapter is somewhere on the chain. |
| `Routing.OutcomeOfRule` | kernel-core/src/foss/golang/clash/rules/logic/logic.go:179-200 | A sub-rule yields the first adapter of its nested lists that is neither PASS-RULE nor has a PASS-RULE on its chain; a plain rule what it matches with. |
| `Routing.FirstMatch` | kernel-core/src/foss/golang/clash/tunnel/tunnel.go:662-691 | The scan stops at the first rule that settles the round. |
| `Routing.UnwrapDescends` | kernel-core/src/foss/golang/clash/tunnel/tunnel.go:671-671 | Each unwrap step goes to a group earlier in dependency order. |
| `Routing.LastTargetStands` | kernel-core/src/foss/golang/clash/adapter/outbound/rematch.go:33-40 | After any chain of rematch proxies each field holds what the last proxy that targets it wrote, or what it held at first; nothing else has changed. |
| `ResolveOnce.Connection.ResolveIP` | kernel-core/src/foss/golang/clash/tunnel/tunnel.go:338-351 | After a request the address is what one lookup gives, however often it is requested. |
| `ResolveOnce.Connection.FirstMatch` | kernel-core/src/foss/golang/clash/tunnel/tunnel.go:338-351 | Over all rounds of a connection there is at most one lookup, and a rule sees its result exactly if it or an earlier evaluated rule asked for it. |
| `ResolveOnce.LazyIsEager` | kernel-core/src/foss/golang/clash/tunnel/tunnel.go:338-351 | Looking up late picks the same rule as looking up first, provided no rule ahead of the first request tells the two addresses apart. |
| `ResolveOnce.NoResolveSeesLess` | kernel-core/src/foss/golang/clash/rules/common/ipcidr.go:38-49 | The proviso is needed: a single no-resolve rule can decide differently. |
| `DnsClients.Builder.CacheTransform` | kernel-core/src/foss/golang/clash/dns/resolver.go:537-566 | Every client connects as its server asks (kind by network, address, route, certificate checks, HTTP versions) and is wrapped as its parameters ask, equals one built from scratch up to the connection's identity, and shares its connection exactly with transportEqual servers. |
| `DnsClients.Builder.TransformAll` | kernel-core/src/foss/golang/clash/dns/resolver.go:526-566 | The same across all the lists that one configuration sends through the cache. |
| `DnsClients.Builder.Scan` | kernel-core/src/foss/golang/clash/dns/resolver.go:541-549 | An exact match wins; otherwise a transportEqual entry is found whenever there is one. |
| `DnsClients.RewrapClient` | kernel-core/src/foss/golang/clash/dns/util.go:146-160 | Peels every layer and wraps anew. |
| `DnsClients.RewrapAbsorbs` | kernel-core/src/foss/golang/clash/dns/util.go:146-160 | Re-wrapping leaves no trace of earlier wrapping. |
| `DnsClients.TransportConnects` | kernel-core/src/foss/golang/clash/dns/util.go:116-141 | What each network makes of a server, and that every unlisted network is plain DNS. |
| `DnsClients.RawIsWrapped` | kernel-core/src/foss/golang/clash/dns/util.go:216-290 | Exactly the query types named by a parameter are refused, and a subnet is attached exactly if one parses, in at most one layer each. |
| `DnsClients.TransportEqualExactly` | kernel-core/src/foss/golang/clash/dns/resolver.go:437-463 | Two servers may share a connection exactly if they agree on everything but ecs, ecs-override and disable parameters. |
| `DnsClients.TransportEqualIsEnough` | kernel-core/src/foss/golang/clash/dns/resolver.go:437-463 | transportEqual servers get the same transport from the constructors: none reads a wrapper-only parameter. |
| `DnsClients.TransportEqualIsEquivalence` | kernel-core/src/foss/golang/clash/dns/resolver.go:437-463 | transportEqual is reflexive, symmetric and transitive. |
| `DnsClients.ReusedGood` | kernel-core/src/foss/golang/clash/dns/resolver.go:550-563 | An entry re-wrapped from a shared connection keeps the cache exact. |
| `DnsClients.BuiltGood` | kernel-core/src/foss/golang/clash/dns/resolver.go:552-563 | A connection built anew belongs to no existing class. |
| `DnsTtl.ServedNeverOutlives` | kernel-core/src/foss/golang/clash/dns/resolver.go:167-181 | For an answer that is no server failure, every served TTL is one or at most the stored TTL less the elapsed seconds rounded up, exactly unless the entry expires between the two clock reads and holds a record more than a second above the least of its section while that least is used up; records are otherwise unchanged. |
| `DnsTtl.RacedAnswerOutlives` | kernel-core/src/foss/golang/clash/dns/resolver.go:172-178 | The exception at concrete records and times: ninety seconds are served where at most eighty-nine are left. |
| `DnsTtl.ServedLeastIsRemaining` | kernel-core/src/foss/golang/clash/dns/util.go:38-46 | The least TTL of each served section is the time that is left, at least one, exactly if the clock reads are in step or no more than a second is left; otherwise it is one second less, because the caches cut the expiry off to whole seconds. |
| `DnsTtl.HalfSecondCostsOne` | kernel-core/src/foss/golang/clash/common/lru/lrucache.go:160-176 | The lost second at concrete times. |
| `DnsTtl.TicksAreElapsed` | kernel-core/src/foss/golang/clash/common/arc/arc.go:78-98 | How many seconds the truncated expiry counts, against the seconds that have elapsed. |
| `DnsTtl.UpdatedSpread` | kernel-core/src/foss/golang/clash/dns/util.go:38-46 | Differences between records above the clamp are kept. |
| `DnsTtl.UpdatedExactly` | kernel-core/src/foss/golang/clash/dns/util.go:38-46 | For all 32-bit words, what the wrapping subtraction and the clamp make of a TTL, in unbounded arithmetic. |
| `DnsTtl.ServedNeverLonger` | kernel-core/src/foss/golang/clash/dns/util.go:60-87 | Even a server failure, cached for five seconds whatever its records say, is never served with a longer TTL than a record had (a zero may become one). |
| `DnsTtl.ServedHasNoOPT` | kernel-core/src/foss/golang/clash/dns/util.go:69-72 | No OPT record is cached or served from the cache in the additional section (section 6.1.1 of RFC 6891). |
| `DnsTtl.MinTTLUnique` | kernel-core/src/foss/golang/clash/dns/util.go:28-36 | The minimal TTL is taken by some record and exceeded by none. |
| `DnsTtl.MinimalTTL` | kernel-core/src/foss/golang/clash/dns/util.go:28-36 | The loop finds the minimal TTL, zero for no records. |
| `DnsTtl.UpdateTTL` | kernel-core/src/foss/golang/clash/dns/util.go:38-46 | The in-place update equals its specification function. |
| `DnsTtl.SetTTL` | kernel-core/src/foss/golang/clash/dns/util.go:89-104 | The in-place overwrite skips OPT records where it must. |
| `DnsTtl.Cache.PutMsgToCache` | kernel-core/src/foss/golang/clash/dns/util.go:60-87 | Challenges and zero lifetimes are not stored; what is stored is the answer without OPT, with its expiry in whole seconds, and the cache remembers nothing else. |
| `DnsTtl.CacheableExactly` | kernel-core/src/foss/golang/clash/dns/util.go:60-85 | Stored is everything but challenges, if it is a server failure or has records left and none of them a zero TTL. |
| `DnsTtl.ExpiryBounds` | kernel-core/src/foss/golang/clash/dns/util.go:74-86 | A server failure is kept for five seconds, anything else no longer than any of its records allows. |
| `DnsTtl.WithoutOPTPicks` | kernel-core/src/foss/golang/clash/dns/util.go:69-72 | Filtering keeps all records but OPT records, in their order. |
| `DnsTtl.ExpiredIsOne` | kernel-core/src/foss/golang/clash/dns/resolver.go:173-176 | An expired entry is served with a TTL of one throughout. |
| `DnsTtl.Cache.Lookup` | kernel-core/src/foss/golang/clash/dns/resolver.go:167-181 | For any history of the cache, a hit outlives its origin exactly in the exceptional case above, and continues fetching exactly when expired. |
| `PacketSender.Conservation` | kernel-core/src/foss/golang/clash/tunnel/connection.go:104-150 | Under any interleaving of Send, Process and Close each packet is in exactly one place, dropped at most once, and the queue holds at most 128. |
| `PacketSender.InOrder` | kernel-core/src/foss/golang/clash/tunnel/connection.go:104-145 | What left the queue followed by what is in it is what was accepted, in order; until Close all of it went to Process. |
| `PacketSender.ProcessedInOrder` | kernel-core/src/foss/golang/clash/tunnel/connection.go:104-127 | Even around a Close, Process sees packets in acceptance order. |
| `PacketSender.SendNeverWaits` | kernel-core/src/foss/golang/clash/tunnel/connection.go:137-144 | Past its first select a Send can put its packet exactly while fewer than 128 are queued, and drop it exactly if cancelled or 128 are. |
| `PacketSender.DroppedForAReason` | kernel-core/src/foss/golang/clash/tunnel/connection.go:104-150 | A packet is dropped only after it was processed, after the context was cancelled, or with 128 queued when it was sent. |
| `PacketSender.LateSendDropped` | kernel-core/src/foss/golang/clash/tunnel/connection.go:129-134 | A packet sent after the cancellation is dropped at once. |
| `PacketSender.CloseIsCleanIff` | kernel-core/src/foss/golang/clash/tunnel/connection.go:118-150 | After a Close, no continuation ends up with Process stopped, every Close returned and a packet still queued, exactly if no Send is past its first select. |
| `PacketSender.RacingCloseLeavesPacket` | kernel-core/src/foss/golang/clash/tunnel/connection.go:118-150 | The run in which such a Send puts its packet after Process has stopped and the only Close has returned; the packet was not dropped. |
| `PacketSender.LeftBehindForGood` | kernel-core/src/foss/golang/clash/tunnel/connection.go:104-150 | A packet left behind is neither processed nor dropped in any continuation without a further Close. |
| `PacketSender.MappingIsStable` | kernel-core/src/foss/golang/clash/tunnel/connection.go:42-54 | A recorded target, and the origin a reply is restored to, never change whatever is added later. |
| `PacketSender.ReplyReachesOrigin` | kernel-core/src/foss/golang/clash/tunnel/connection.go:56-63 | Replies carry the address the flow was opened with, as long as flows that share the target were opened with it. |
| `PacketSender.Mappings.AddMapping` | kernel-core/src/foss/golang/clash/tunnel/connection.go:42-54 | The maps always hold the first valid entry of the history for each key. |
| `PacketSender.Mappings.RestoreReadFrom` | kernel-core/src/foss/golang/clash/tunnel/connection.go:56-63 | Restores the first valid origin recorded for the address, or the address itself. |
| `PacketSender.Mappings.Destination` | kernel-core/src/foss/golang/clash/tunnel/connection.go:65-102 | A flow keeps the first address it was resolved to; a failed resolution records nothing. |
| `GroupProxies.GroupBase.GetProxies` | kernel-core/src/foss/golang/clash/adapter/outboundgroup/groupbase.go:122-235 | Whatever updates interleave, the result is a filter pass over lists no older than the versions read, or the fallback if that is empty, and empty exactly for a group without providers. It holds only what some provider offers (its list, or for filtered providers what some filter matches in it) and no pattern excludes; every offered name is represented; unmerged unfiltered proxies stand for themselves. |
| `GroupProxies.PassIsFiltered` | kernel-core/src/foss/golang/clash/adapter/outboundgroup/groupbase.go:140-224 | The same of every filter pass of every group. |
| `GroupProxies.FilteredIsSorted` | kernel-core/src/foss/golang/clash/adapter/outboundgroup/groupbase.go:152-165 | A filtered provider contributes exactly the matched names, each once, by the first filter that takes it and then by position, even if its list changes between filters. |
| `GroupProxies.UnfilteredIsList` | kernel-core/src/foss/golang/clash/adapter/outboundgroup/groupbase.go:141-150 | Without filters, and for a compatible provider, the contribution is the list as it is. |
| `GroupProxies.ProvidersInOrder` | kernel-core/src/foss/golang/clash/adapter/outboundgroup/groupbase.go:141-166 | The contributions follow one another in the order of the providers. |
| `GroupProxies.RemainingPicks` | kernel-core/src/foss/golang/clash/adapter/outboundgroup/groupbase.go:196-224 | Exclusion keeps exactly the proxies that no pattern matches, at increasing positions. |
| `GroupProxies.PassIsOrdered` | kernel-core/src/foss/golang/clash/adapter/outboundgroup/groupbase.go:169-224 | With several providers and filters a pass has each name at most once, by its first occurrence, ordered stably by first matching filter, and exactly the names not excluded. |
| `GroupProxies.ReorderedIsSorted` | kernel-core/src/foss/golang/clash/adapter/outboundgroup/groupbase.go:169-194 | The reordering is a sort by (first matching filter, position) over the same names. |
| `GroupProxies.ReorderedIsUnique` | kernel-core/src/foss/golang/clash/adapter/outboundgroup/groupbase.go:169-194 | It is the only list so ordered that holds the first occurrence of each name. |
| `GroupProxies.FilterInOrder` | kernel-core/src/foss/golang/clash/adapter/outboundgroup/groupbase.go:152-165 | The nested loops equal removing repeated names from the filters' matches in order. |
| `GroupProxies.Reorder` | kernel-core/src/foss/golang/clash/adapter/outboundgroup/groupbase.go:169-194 | The loops compute that reordering. |
| `GroupProxies.Exclude` | kernel-core/src/foss/golang/clash/adapter/outboundgroup/groupbase.go:196-224 | The exclusion loops keep exactly the proxies no pattern matches, in order. |
| `LoadBalance.JumpHash` | kernel-core/src/foss/golang/clash/adapter/outboundgroup/loadbalance.go:109-119 | Terminates with the bucket of the specification, in range whenever there are buckets. |
| `LoadBalance.KeyStep` | kernel-core/src/foss/golang/clash/adapter/outboundgroup/loadbalance.go:114-114 | The key step maps 0 to 1, 1 to the multiplier plus one, and is affine modulo 2^64, which determines it. |
| `LoadBalance.CandidateIs` | kernel-core/src/foss/golang/clash/adapter/outboundgroup/loadbalance.go:115-115 | For every key and bucket the next candidate is the whole part of (b + 1) * 2^31 over the top 31 bits of the key plus one, wherever that is not within rounding (one part in 2^53 for the quotient, one for the product) of a whole number. |
| `LoadBalance.BucketsOfKeyOne` | kernel-core/src/foss/golang/clash/adapter/outboundgroup/loadbalance.go:109-119 | Key 1 goes to bucket 6 of 7 and to bucket 17 of 18, under any admitted rounding. |
| `LoadBalance.NextBucketGrows` | kernel-core/src/foss/golang/clash/adapter/outboundgroup/loadbalance.go:114-116 | Under monotone rounding the next candidate is always a later bucket and fits an int64. |
| `LoadBalance.JumpIsConsistent` | kernel-core/src/foss/golang/clash/adapter/outboundgroup/loadbalance.go:109-119 | From n to n+1 buckets a key keeps its bucket or moves to bucket n. |
| `LoadBalance.JumpMoves` | kernel-core/src/foss/golang/clash/adapter/outboundgroup/loadbalance.go:109-119 | From n to any larger number a key keeps its bucket or moves to a new one. |
| `LoadBalance.ConsistentHashing` | kernel-core/src/foss/golang/clash/adapter/outboundgroup/loadbalance.go:196-219 | Returns a live proxy exactly when there is one: the first live of five tries, else the first live in the list; the first proxy if none is alive. |
| `LoadBalance.RoundRobinIsFair` | kernel-core/src/foss/golang/clash/adapter/outboundgroup/loadbalance.go:167-194 | From any index, as many touching calls as there are live proxies return each exactly once, whatever calls without touch are mixed in. |
| `LoadBalance.ChosenIsNext` | kernel-core/src/foss/golang/clash/adapter/outboundgroup/loadbalance.go:177-192 | The choice is the first live proxy from the index on around the list, and the index moves just past it; with none alive it is the first proxy. |
| `LoadBalance.RoundRobin.Select` | kernel-core/src/foss/golang/clash/adapter/outboundgroup/loadbalance.go:170-194 | Chooses the next live proxy from the index, which moves just past it only on a touching call. |
| `LoadBalance.RoundRobin.SelectAll` | kernel-core/src/foss/golang/clash/adapter/outboundgroup/loadbalance.go:167-194 | A series of calls yields the specified series of touching choices. |
| `LoadBalance.PositionsCover` | kernel-core/src/foss/golang/clash/adapter/outboundgroup/loadbalance.go:183-190 | Successive choices stay within one turn and skip no live position. |
| `TunSession.PermitsConserved` | kernel-core/src/main/golang/native/tun.go:29-51 | In every interleaving the four permits are split among free, callbacks and a close. |
| `TunSession.NoUseAfterRelease` | kernel-core/src/main/golang/native/tun.go:29-65 | No callback is inside the host function once its object is released or its session closed. |
| `TunSession.ReleasedOnce` | kernel-core/src/main/golang/native/tun.go:51-65 | Each callback object is released at most once; with the lock free, exactly those of all but the current session. |
| `TunSession.CloseClearsOwnContext` | kernel-core/src/main/golang/native/tun.go:51-97 | Whoever's callbacks are taken down belongs to the closed session being closed, which is the newest. |
| `TunSession.ContextIsCurrent` | kernel-core/src/main/golang/native/tun.go:67-109 | With the lock free, the installed callbacks are those of the open current session. |
| `TunSession.OnlyCurrentRuns` | kernel-core/src/main/golang/native/tun.go:51-109 | With the lock free, the TUN device of the current session runs and no other. |
| `TunSession.StopAndStart` | kernel-core/src/main/golang/native/tun.go:67-109 | Stopping and starting close the current session first; a start then makes a new one, current exactly if its device starts, and closed otherwise. |
| `TunSession.CloseCompletes` | kernel-core/src/main/golang/native/tun.go:51-65 | Once no callback holds a permit a close runs to its end: closed, device stopped, object released once, no current session, no callbacks installed. |
| `TunSession.ClosedStaysClosed` | kernel-core/src/main/golang/native/tun.go:29-49 | Late callers of a closed session never reach the host again. |
| `SocksAddr.RoundTripIff` | kernel-core/src/foss/golang/clash/adapter/outbound/util.go:15-33 | Parsing a printed address gives back host (or else IP) and port exactly when the host has no trailing dot and at most 252 bytes (or 253 and a port with low byte 3), and an IPv6 address has no zone and is not IPv4-mapped. |
| `SocksAddr.PrintedLayout` | kernel-core/src/foss/golang/clash/adapter/outbound/util.go:15-33 | The byte layout of RFC 1928, section 5: type 3, 1 or 4, length and name or octets, port high byte first. |
| `SocksAddr.TrimTakesDots` | kernel-core/src/foss/golang/clash/adapter/inbound/util.go:19-19 | What is trimmed off a host is dots and nothing else. |
| `SocksAddr.MappedComesBackShort` | kernel-core/src/foss/golang/clash/adapter/inbound/util.go:25-29 | An IPv6 address comes back as IPv4 exactly if it is IPv4-mapped. |
| `SocksAddr.PanicsIff` | kernel-core/src/foss/golang/clash/adapter/inbound/util.go:14-32 | The parser panics on a printed address exactly for host lengths 254 and 255 modulo 256. |
| `SocksAddr.ReprintsIff` | kernel-core/src/foss/golang/clash/adapter/inbound/util.go:14-32 | Printing a parsed complete address gives it back under the corresponding exact condition. |
| `SocksAddr.ParsePrintedDomain` | kernel-core/src/foss/golang/clash/adapter/inbound/util.go:17-21 | What the parser's wrapping offsets make of a printed domain name of any length. |
| `SocksAddr.ParsePrintedIP` | kernel-core/src/foss/golang/clash/constant/metadata.go:255-264 | Both ends agree on the address type of every valid IP. |

## Left out

- ZeroTier node, transport, IP-link and stack internals: a failed `ApplyNetworkConfig` leaves the link unchanged, and
  nodes only deliver configurations of the joined network.
- ZeroTier decoding errors and `clearLoggedNetworkFailure`: they only choose error values and log lines.
- ZeroTier inbound frames and stack packet loops: they read what `DataPlaneAgreement` describes; only their device
  failures are steps.
- The 64-bit wrap of `configGeneration` and the 32-bit wrap of a provider's version: counters are unbounded.
- NoLostConfiguration: speaks of states with a runtime; `RunKeepsExactly` is the statement without that condition.
- DataPlaneAgreement: says nothing about the link between a failed rollback and the next publication, because the
  code does not restore it there.
- Identity and address parsing of ZeroTier settings, and its MTU limits, which are parameters.
- Parsing of proxy groups beyond name and members, providers in `parseProxies`, and the GLOBAL group.
- Rule matching itself, process lookup, and the effect of an address lookup within a match: in `Routing` a rule is a
  function of the metadata of its round; the lookup by itself is the subject of `ResolveOnce`.
- The mode switch and special-proxy shortcut of `resolveMetadata`, statistics and connection handling.
- DNS exchange, policies, fallback, single flight and the retry after errors; the eviction order of the LRU and ARC
  caches, which may drop any entry at any time.
- ServedNeverOutlives: the remaining time is floored to whole seconds exactly; double-precision rounding of a
  remaining time of many days is not modelled.
- Reading a negative remaining time of a second or more, which the Go conversion leaves undefined, counts as zero.
- Clocks that run backwards: an answer is looked up no earlier than it was stored.
- The panic recovered when proxy adapters are compared: adapters are comparable.
- Resolution, sniffing and writing in the UDP sender: the resolved address is a parameter.
- JumpHash: double precision is any monotone rounding that is exact on small integers and small multiples of 2^31 and
  accurate to one part in 2^53 on the numbers that come up; which way a quotient within that of a whole number goes is
  left open.
- Key derivation of load balancing, sticky sessions, health checks and delay measurement: clocks and randomness.
- ConsistentHashing: the set of live proxies is fixed during one call.
- The Android and JNI side of TUN sessions; blocking of `startTun` and `stopTun` on a callback that never returns.
- PacketSender and TunSession model the interleaved methods as steps of a state machine on values, so aliasing of the
  objects involved is not captured.
- Other outbounds, listeners, profiles, overrides and the user interface.
