# A verified model of the panel's reconcilers, hand-offs and codecs

The panel manages VPN interfaces, side processes and Xray templates. This project models the parts of it
that keep state across crashes, concurrency or text round trips, and proves what they promise.

| modules | what they model |
|---|---|
| KernelWorld, KernelSafety, KernelConverge, KernelRuns, KernelReconcile, KernelRestart, KernelPriming, KernelManager | the kernel-interface controller: every host command is a step with a fate (works, fails, kills the process; applied or not), specifications are functions over the host and the manager, KernelManager is the controller as a class over a mutable host, proved equal to them |
| OwnedConfig, OwnedConfigLaws, OwnedConfigSections | the ownership config: printer, grammar, key lookup, interface section |
| ChanBridge, UdpRelay, EventBus, EventBusLoops, EventFilter | concurrent protocols as state machines over atomic actions; the bus and the rate limiter also as classes |
| TrafficMeter, TrafficCollector, EndpointWindow, KernelCollector, SidecarTraffic, SidecarOverlap | traffic accounting and the endpoint window |
| Json, DnsOutbound, OutboundRewrites, TemplateRewrites | the rewrites of stored Xray outbounds |
| MtgConfig, MtgManager | the mtproto manager: its two fingerprints, and keeping, reloading or restarting mtg by them |
| UniqueNames, Obfuscation, ForwardedPorts, PortForwards | unique emails, obfuscation parameters, port forwards |
| SocksWire | SOCKS5 datagram headers (section 7 of RFC 1928) and the username/password message (section 2 of RFC 1929) |
| AwgConf, AwgConfLaws, AwgConfRoundTrip, AwgImport | the awg-quick config of the user-space path |
| GoStrings, Options | the string functions the above rest on |

`dafny verify dfyconfig.toml` checks everything.

What the proofs show that a reader of the code would not expect:

- A rebuild that fails after `setconf` leaves the old managed entry over the new link; going back to the old
  spec then takes the in-place branch and writes a config whose key is not the link's (KeyLostIffStale,
  StaleEntryIsReachable).
- An inbound whose private key no public key derives from can leave a link that no later call ever clears
  (UnclearableIsReachable, UnclearableStays).
- A teardown whose listing of the FORWARD chain fails leaves rules no later teardown finds (TeardownCanLeakRules).
- Success in place or by adoption says nothing about the link being administratively up (EnsureOkIsUpIff).
- A peer whose only AllowedIPs entry is the empty string makes Render write a file the panel itself refuses
  (RenderedIsOwnedIff).
- A white-space RekeyAfterTime passes the validator with any reject range, but is rendered as "not set"
  (AcceptedRenewsIff); the save path canonicalises first and is not affected (CanonicalAcceptedRenews).
- Accept can hand out a connection that its handler closes: whenever the handler reads the flag before the store
  and closes after the dequeue (ClosesDequeuedIff, with a run for either order of dequeue and flag read).
- A version 1.5 AWG device with a ranged header is imported as version 2 (DetectedIsNoNewerIff).
- A bar in an mtproto inbound's preferred, fronting or public address can make a due restart look unneeded
  (ToldFromAllIff, StaleIsKept).
- A UDP Handle still dialling while Close runs publishes an open session afterwards (LateHandleStaysOpen).
- A client that leaves the wanted set while its kernel peer stays, because removing the peer fails, loses its
  traffic baseline; when it comes back, its whole counter is charged again (ReturningClientIsRecharged, with the
  exact condition in CollectorNeverOvercharges). Overlapping sidecar collectors overcharge
  too: n of them by a factor of up to 1 + 2 + ... + n (OverlapBound, OverlapBoundIsMet).

## Model

| member | source | states |
|---|---|---|
| KernelSafety.EnsureIsSound | internal/amneziawgkern/manager.go:91-165 | Whichever command of an Ensure fails or kills the process, the write-ahead record survives, for every spec whose config validOwnedConfig accepts: a link the manager made or manages, or a NAT table, has an owned config on disk; with a usable key, if the specs have one. |
| KernelSafety.TeardownIsSound | internal/amneziawgkern/manager.go:462-497 | The same for a teardown cut short anywhere: the config is the last thing to go. |
| KernelRuns.RunIsSound | internal/amneziawgkern/manager.go:85-165 | Over every run of Ensure, Remove, Reconcile, StopAll, priming, lost links, restarts and reboots, with any command failing or killing the process, every inbound keeps its write-ahead record and every managed entry is a spec buildSpec could have made; with usable keys, if all specs have one. |
| KernelSafety.LeftoverClearableIff | internal/amneziawgkern/manager.go:318-333 | A fresh process can delete a link the panel left if and only if a public key derives from the private key of the config on disk. |
| KernelSafety.UnclearableStays | internal/amneziawgkern/manager.go:318-333 | Otherwise no later call changes anything, whatever the fate of its commands. |
| KernelSafety.UnclearableIsReachable | internal/amneziawgkern/manager.go:198-218 | It happens: the first Ensure of an inbound with such a private key fails at setconf and then at removing the link. |
| KernelSafety.EnsureKeepsKey | internal/amneziawgkern/manager.go:137-162 | Outside the stale-entry path, whatever fails, the link stays keyless or keyed with exactly the key of the config on disk, so a fresh process can verify and clear it. |
| KernelSafety.KeyLostIffStale | internal/amneziawgkern/manager.go:113-124 | The exact condition: some fate of the commands breaks the key match if and only if the stale-entry guard (entry of the wanted structure over a link keyed from another spec, config to be rewritten) holds before the call and the config file is not refused. |
| KernelConverge.StaleEntryIsReachable | internal/amneziawgkern/manager.go:137-162 | That guard is reachable from a perfectly settled inbound: an Ensure for another key that breaks after setconf keeps the old entry over the new link. |
| KernelSafety.HonestIsNotStale | internal/amneziawgkern/manager.go:113-124 | While the managed entry still describes the link's key, no wanted spec can meet the stale-entry guard. |
| KernelSafety.EnsureKeepsHonesty | internal/amneziawgkern/manager.go:137-162 | Ensure spoils an honest entry only by failing to rebuild a managed link while a link is left behind. |
| KernelSafety.TeardownKeepsKey | internal/amneziawgkern/manager.go:462-497 | A teardown cut short anywhere keeps the key match. |
| KernelRuns.RunKeepsKeys | internal/amneziawgkern/manager.go:85-165 | Over every run in which no Ensure is called on the stale-entry guard, every link stays verifiable by a fresh process. |
| KernelSafety.EnsureOkIsLive | internal/amneziawgkern/manager.go:113-164 | A nil error means file, link config, MTU, addresses and NAT table all equal the spec if and only if the call did not go in place, or the parts it takes on trust from the previous entry were really there. |
| KernelSafety.SettledStaysLive | internal/amneziawgkern/manager.go:113-164 | From a settled entry, a nil error always means full agreement, and the entry stays settled. |
| KernelSafety.EnsureOkIsUpIff | internal/amneziawgkern/manager.go:126-135 | linkMatches does not look at the administrative state: whatever failed on the way, after success an in-place or adopted link (its baseline still pending) is up exactly if it was up before; a rebuilt one always is. |
| KernelConverge.SyncSparesOthers | internal/amneziawgkern/manager.go:251-290 | Replacing an inbound's FORWARD rules leaves everybody else's rules and their order alone, whatever fails. |
| KernelConverge.SyncReaches | internal/amneziawgkern/manager.go:251-263 | When commands succeed, the inbound's tagged rules are exactly the wanted ones. |
| KernelConverge.EnsureReaches | internal/amneziawgkern/manager.go:91-165 | When no command fails, Ensure ends with slot and rules exactly as the spec says; when the process dies instead, what it leaves is clean for the next process. |
| KernelConverge.TeardownReaches | internal/amneziawgkern/manager.go:462-497 | When no command fails, teardown leaves nothing of the inbound, or, if the process dies, something the next process can clear. |
| KernelConverge.EnsureIsIdempotent | internal/amneziawgkern/manager.go:113-124 | An Ensure for what is already there changes nothing, whatever the fate of its commands. |
| KernelReconcile.RunIsTidy | internal/amneziawgkern/manager.go:335-377 | Every state a run without failed commands reaches, with crashes at any point, is one Reconcile can converge from, and every FORWARD rule of the panel's has a config on disk. |
| KernelRestart.RunIsOrderly | internal/amneziawgkern/manager.go:85-165 | Every state any run reaches, with commands failing and crashes at any point and the stale-entry guard avoided, is in order: links and configs are the panel's, recorded and verifiable. |
| KernelRestart.RestartConverges | internal/amneziawgkern/manager.go:335-377 | So after any such run a restart and one undisturbed Reconcile converge, but for FORWARD rules that lost their config. |
| KernelRestart.TeardownCanLeakRules | internal/amneziawgkern/manager.go:265-290 | Such rules exist: when listing the FORWARD chain fails, a teardown succeeds and leaves the inbound's rules without anything a later teardown would find. |
| KernelRestart.FreshHost | internal/amneziawgkern/manager.go:85-165 | A host the panel has never touched meets every hypothesis the run theorems start from. |
| KernelReconcile.ReconcileConverges | internal/amneziawgkern/manager.go:335-377 | From every such state, for specs with usable keys, an undisturbed Reconcile ends with every wanted inbound managed and with its rendered config, MTU, addresses, NAT and FORWARD rules, save one whose spec or config path is refused, which is left as it was; nothing else is managed and nothing of any other inbound remains, but FORWARD rules that had no config. |
| KernelReconcile.NoResidue | internal/amneziawgkern/manager.go:335-377 | Where every rule has its config, as after every run without failed commands, no rule of any other inbound remains either. |
| KernelReconcile.SecondReconcileIsSilent | internal/amneziawgkern/manager.go:335-377 | A second Reconcile for the same set changes no file, link, table, rule or entry, whatever the fate of its commands and the order of its loops. |
| KernelReconcile.UnwantedIsCleared | internal/amneziawgkern/manager.go:343-371 | The two teardown loops between them reach every unwanted inbound the panel left something of; its FORWARD rules go if and only if it had a config. |
| KernelPriming.EnsureGeneration | internal/amneziawgkern/manager.go:167-170 | An Ensure keeps the entry's generation, drops the entry or issues the next generation, never an old one. |
| KernelPriming.RunPrimesOnce | internal/amneziawgkern/manager.go:448-458 | Over every run, generations of live entries are distinct and each generation is primed at most once per process. |
| KernelManager.Manager.Ensure | internal/amneziawgkern/manager.go:91-165 | The imperative ensureLocked over a mutable host equals the specification function the theorems are about, and touches no other inbound. |
| KernelManager.Manager.RemoveForwardRules | internal/amneziawgkern/manager.go:265-290 | The listing loop with its per-rule deletes equals its specification. |
| KernelManager.Manager.SyncForwardRules | internal/amneziawgkern/manager.go:251-263 | The insert loop equals its specification. |
| KernelManager.Manager.CreateLink | internal/amneziawgkern/manager.go:198-218 | The command loop that stops at the first failure equals its specification. |
| KernelManager.Manager.Teardown | internal/amneziawgkern/manager.go:462-497 | The imperative teardown equals its specification. |
| KernelManager.Manager.Reconcile | internal/amneziawgkern/manager.go:335-377 | The three loops of Reconcile, over any iteration orders, equal the specification. |
| OwnedConfig.OwnedNameInjective | internal/amneziawgkern/config.go:41-43 | Different ids have different interface names. |
| OwnedConfig.ParseOwnedNameIff | internal/amneziawgkern/ownership.go:16-25 | A name parses to an id if and only if it is that positive id's own interface name. |
| OwnedConfig.Render | internal/amneziawgkern/config.go:113-142 | The builder with its peer loop gives the specified text, or an error exactly for an empty private key or a control character. |
| OwnedConfig.ValidOwnedConfigLoop | internal/amneziawgkern/ownership.go:106-144 | The line loop decides the specified grammar. |
| OwnedConfig.ConfigPublicKeyLoop | internal/amneziawgkern/ownership.go:75-91 | The key scan equals its specification, an error on a second private key included. |
| OwnedConfigLaws.RenderedIsOwnedIff | internal/amneziawgkern/config.go:113-142 | Every rendering passes validOwnedConfig under its own interface name and no other, if and only if no written peer has the single empty AllowedIPs entry. |
| OwnedConfigLaws.RenderedKey | internal/amneziawgkern/ownership.go:75-91 | The public key found in a rendering is that of the instance's private key. |
| OwnedConfigSections.RenderedSection | internal/amneziawgkern/manager.go:501-506 | The interface section of a rendering holds nothing of the peers. |
| OwnedConfigSections.SectionsEqualIff | internal/amneziawgkern/config.go:189-235 | Two renderings have equal interface sections if and only if the instances agree on every normalised interface field. |
| OwnedConfigSections.SectionHoldsKey | internal/amneziawgkern/ownership.go:75-144 | In every text the panel accepts as its own, rendered or not, the key is decided by the interface section alone. |
| OwnedConfigSections.TextCodecIsLawful | internal/amneziawgkern/ownership.go:106-144 | The real grammar, section and key lookup meet the one law the kernel theorems assume of config texts. |
| OwnedConfigSections.RenderedSpecIsLegit | internal/amneziawgkern/config.go:69-105 | A rendered spec meets the kernel theorems' precondition if and only if no written peer has the single empty AllowedIPs entry and, for those about keyed specs, a public key derives from its private key. |
| ChanBridge.RunKeepsInv | caddylucx/caddylucx.go:46-150 | The inductive invariant of handlers, accept loops, closes and re-registrations, interleaved at every atomic action. |
| ChanBridge.HandlerPromises | caddylucx/caddylucx.go:124-150 | Handle returns nil only after the bridged connection is closed; a call that read the flag as set has not closed; a close that was not Handle's was the HTTP server's, of a connection handed to it. |
| ChanBridge.SeenAcceptedNeverClosed | caddylucx/caddylucx.go:138-148 | Whatever happens next, a call that read the accepted flag as set never closes its connection. |
| ChanBridge.BlockedIff | caddylucx/caddylucx.go:133-148 | Exactly when a handler cannot move: finished, live listener's queue full, waiting on a live listener, or waiting for the HTTP server that owns its connection. |
| ChanBridge.QueuedDoesNotOutlive | caddylucx/caddylucx.go:138-148 | A connection still queued on a dead listener is closed by the time its handler has nothing left to do. |
| ChanBridge.QueuedIsReleased | caddylucx/caddylucx.go:138-148 | Its handler gets there alone, in at most four of its own actions, none of which waits for anyone. |
| ChanBridge.ClosesDequeuedIff | caddylucx/caddylucx.go:65-75 | In every run, Handle closes a connection an Accept has already dequeued if and only if the dequeue comes before the close and the flag is read before the store; which of dequeue and flag read comes first does not matter. |
| ChanBridge.ClosesOnlyUnset | caddylucx/caddylucx.go:138-148 | A flag read after the store is never followed by a close. |
| ChanBridge.AcceptedCanBeClosed | caddylucx/caddylucx.go:67-69 | That is reachable with the flag read between the dequeue and the store: the HTTP server is handed a connection its handler closes under it. |
| ChanBridge.QueuedCanBeClosed | caddylucx/caddylucx.go:65-75 | And with the flag read while the connection is still queued, the dead listener's Accept dequeuing it before the close. |
| ChanBridge.RegistrationStands | caddylucx/caddylucx.go:77-87 | Closing an older listener, or any other step, never unregisters a replacement; only its own Close or a new registration does. |
| ChanBridge.ClosedIsUnregistered | caddylucx/caddylucx.go:77-87 | Once a listener's Close has finished, no name leads to it. |
| UdpRelay.RunKeepsInv | internal/amneziawgnet/relay.go:401-467 | The inductive invariant of Handle, pump and Close interleaved at every locked section. |
| UdpRelay.OnePumpEach | internal/amneziawgnet/relay.go:408-429 | A published session has exactly one pump, running or owed by the one call about to start it; an unpublished one has none. |
| UdpRelay.MapHoldsOpenSessions | internal/amneziawgnet/relay.go:401-430 | With the lock free, every session in the map is open and under its own source. |
| UdpRelay.NoSessionIsLost | internal/amneziawgnet/relay.go:408-429 | Every session ever dialled is published, closed, or in the hands of the call that dialled it. |
| UdpRelay.RetireIsOwn | internal/amneziawgnet/relay.go:435-444 | A pump takes at most its own session off the map. |
| UdpRelay.SendsThroughOwnSession | internal/amneziawgnet/relay.go:401-432 | A datagram leaves through a published session of its own source. |
| UdpRelay.LeftOpenIff | internal/amneziawgnet/relay.go:460-467 | With the map empty, the sessions left open are exactly those a late Handle still holds and those whose pump's next action closes them. |
| UdpRelay.ShutdownClosesAll | internal/amneziawgnet/relay.go:460-467 | Once delivery has stopped, a completed Close leaves every session ever dialled closed, or about to be closed by its own pump. |
| UdpRelay.LateHandleStaysOpen | internal/amneziawgnet/relay.go:408-429 | Delivery has to stop first: a call still dialling during Close publishes an open session afterwards. |
| EventBus.RunKeepsInv | internal/eventbus/bus.go:58-175 | The inductive invariant of publishers, dispatch, workers, subscription changes and Stop, interleaved at every channel operation and locked section. |
| EventBus.DeliveryIsFaithful | internal/eventbus/bus.go:115-153 | Handled plus queued is an in-order, duplicate-free selection of the dispatched events; an event is in it if and only if the subscriber was listed at its dispatch, the fan-out has reached it, and the subscriber's own queue was not full when it did. |
| EventBus.DropsNeedFullQueue | internal/eventbus/bus.go:124-130 | An offered event is dropped if and only if the recorded length of the subscriber's own queue at that offer is the full 64. |
| EventBus.LengthIsRecorded | internal/eventbus/bus.go:124-130 | What is recorded for an offer is the real length of the queue at that moment. |
| EventBus.RecordStands | internal/eventbus/bus.go:124-130 | No later step of any run changes it. |
| EventBus.FanOutIsCurrent | internal/eventbus/bus.go:123-132 | Every listed subscriber has been offered every dispatched event, the one in progress apart. |
| EventBus.BusIsBounded | internal/eventbus/bus.go:58-110 | Buffer and queues stay within bounds, and a quit channel is closed at most once and exactly when its subscriber has left the list. |
| EventBus.IdsStayUnique | internal/eventbus/bus.go:58-93 | No two listed subscribers share an id. |
| EventBus.StopIsFinal | internal/eventbus/bus.go:161-175 | After Stop has set its flag no worker is ever added; after it has returned nothing runs and nothing more is handled. |
| EventBusLoops.Bus.Subscribe | internal/eventbus/bus.go:58-80 | The replacing loop and the append are the one step the theorems reason about. |
| EventBusLoops.Bus.Unsubscribe | internal/eventbus/bus.go:83-93 | The removing loop is the one step the theorems reason about. |
| EventBusLoops.Bus.FanOut | internal/eventbus/bus.go:120-132 | One iteration of dispatch is the lock, one offer to each subscriber in order, and the unlock. |
| EventFilter.PruningChangesNothing | internal/eventbus/filter.go:25-52 | On a clock that never goes back, a call is refused if and only if one of the same key was allowed less than a cooldown before: pruning changes no answer of any call sequence. |
| EventFilter.AllowedAreSpaced | internal/eventbus/filter.go:25-36 | Two allowed events of one key are at least a cooldown apart. |
| EventFilter.BackwardClockForgets | internal/eventbus/filter.go:42-52 | The clock hypothesis is needed: for any two keys and any cooldown, a prune at a later reading forgets what an earlier one would hold back. (Go's monotonic clock meets the hypothesis.) |
| EventFilter.RateLimiter.PruneLocked | internal/eventbus/filter.go:42-52 | Deleting while ranging equals the specified prune; after one, only keys sent within the last cooldown remain. |
| EventFilter.RateLimiter.Allow | internal/eventbus/filter.go:25-36 | The method gives the specified answer and state. |
| TrafficMeter.Account | internal/amneziawgkern/stats.go:114-156 | The exact account of a counter over any lives, with polls, primings and dropped baselines in any order: what it carried, plus what dropped baselines charge again, less what priming waives and hidden resets swallow. |
| TrafficMeter.NeverOvercharged | internal/amneziawgkern/stats.go:114-139 | While no baseline is dropped in a life the counter goes on in, it is never charged more than it carried beyond its primed baselines, and charged exactly that if and only if no reset hides. |
| TrafficMeter.PrimedIsChargedFromBaseline | internal/amneziawgkern/stats.go:143-156 | A life primed anywhere is charged for what came after the baseline and for what had been charged before it. |
| TrafficMeter.LifeCharge | internal/amneziawgkern/stats.go:119-134 | One life is charged its last value, plus the last value before each baseline drop it is seen again after, less what priming waives. |
| TrafficMeter.DroppedBaselineOvercharges | internal/amneziawgkern/stats.go:311-318 | An unprimed life is charged more than it carried if and only if a baseline is dropped after a positive value and the counter is seen again. |
| TrafficCollector.KeyInjective | internal/amneziawgkern/stats.go:111 | With slash-free interface names a key belongs to one interface and one peer. |
| TrafficCollector.OthersUntouched | internal/amneziawgkern/stats.go:237-262 | Delta, Prime, Forget and SetEmails of one interface leave every other interface's baselines alone. |
| TrafficCollector.RunIsMeter | internal/amneziawgkern/stats.go:114-156 | Over any run, what one peer is charged depends only on its own readings and baseline drops: the collector is a product of independent meters. |
| TrafficCollector.CollectorAccount | internal/amneziawgkern/stats.go:114-156 | The same account for one peer over any run of polls, primes, forgets and email syncs of any interfaces. |
| TrafficCollector.CollectorNeverOvercharges | internal/amneziawgkern/stats.go:114-139 | Over any such run a peer is charged more than its counter carried if and only if what dropped baselines charge again outweighs what priming waives and hidden resets swallow; never while no baseline is dropped in a life the counter goes on in. |
| TrafficCollector.EveryRunHasLives | internal/amneziawgkern/stats.go:114-156 | No run is outside that account. |
| TrafficCollector.ReturningClientIsRecharged | internal/web/job/amneziawg_job.go:236-256 | It happens: a client leaves the wanted set while its kernel peer stays, is back by the next tick, and is charged its whole counter again. |
| EndpointWindow.ListsAreTheLogView | internal/amneziawgkern/stats.go:159-211 | With a clock that never goes back and one window, after any run an address is listed if and only if an accepted sighting of it lies in the interface's current window, once, with its latest handshake. |
| EndpointWindow.TouchShows | internal/amneziawgkern/stats.go:191-209 | Recording one sighting keeps the list equal to the log's view. |
| EndpointWindow.RecentSelects | internal/amneziawgkern/stats.go:165-180 | Compacting keeps the list equal to the log's view at the later cutoff. |
| KernelCollector.Collector.Poll | internal/amneziawgkern/stats.go:114-139 | The Delta loop returns the specified rows and records the specified baselines. |
| KernelCollector.Collector.Prime | internal/amneziawgkern/stats.go:143-156 | Delete loop and record loop give the specified baselines. |
| KernelCollector.Collector.Forget | internal/amneziawgkern/stats.go:237-262 | The four delete loops drop exactly the interface's own keys. |
| KernelCollector.Collector.SetEmails | internal/amneziawgkern/stats.go:301-345 | Exactly the active peers keep state and have their email recorded; other interfaces are untouched. |
| KernelCollector.Collector.ObserveEndpoints | internal/amneziawgkern/stats.go:159-211 | The nested in-place loops equal the specified map. |
| SidecarTraffic.NeverOvercharged | internal/mtproto/manager.go:409-468 | For one collector interleaved in any way with restarts, reloads, crashes and peer syncs, no client is charged more than was reported for it, stale baselines written back included. |
| SidecarTraffic.SteadyPollIsExact | internal/mtproto/manager.go:409-468 | While only traffic moves after a baseline was written, the next poll charges exactly what was reported since. |
| SidecarOverlap.OverlapBound | internal/mtproto/manager.go:409-468 | n collectors, interleaved in any way with each other, restarts, reloads and crashes, charge a client at most 1 + 2 + ... + n times what was reported for it. |
| SidecarOverlap.OverlapBoundIsMet | internal/mtproto/manager.go:409-468 | And for every n and every amount some run charges exactly that much. |
| SidecarTraffic.CollectUsers | internal/mtproto/manager.go:431-459 | The loop over scraped users charges each client what the state machine charges it and replaces the baseline. |
| SidecarTraffic.CollectPeers | internal/awg/manager.go:503-534 | The peer deltas of a tick sum to the inbound delta; each peer is charged like an mtg client, nothing without a baseline. |
| MtgConfig.ToldFromAllIff | internal/mtproto/manager.go:90-107 | For a listen address without the joining bar, the structural fingerprint differs from that of every other structure if and only if no other text of it holds the bar either. |
| MtgConfig.SecretsToldIff | internal/mtproto/manager.go:114-121 | For names, secrets and tags without the fingerprint's separators, two client lists have equal fingerprints if and only if they hold the same clients, in whatever order. |
| MtgManager.MatchIsSameConfig | internal/mtproto/manager.go:294-302 | So, for such texts, equal fingerprints mean the same config. |
| MtgManager.RunIsSound | internal/mtproto/manager.go:304-368 | Over every run, with files, ports, reloads and starts that fail and processes that exit at any time, what the manager has on record about a running process is true, and no process runs that no inbound owns. |
| MtgManager.OkServes | internal/mtproto/manager.go:304-356 | A nil error means the inbound's process runs and serves a config that matches, and an Ensure whose steps work succeeds. |
| MtgManager.OthersUntouched | internal/mtproto/manager.go:304-356 | It leaves every other inbound's entry, file and process alone. |
| MtgManager.KeptIff | internal/mtproto/manager.go:294-327 | A running process is kept, connections and all, exactly when it has the wanted structure and either serves the wanted clients or takes them over the API; a reload whose file cannot be written fails before anything is touched. |
| MtgManager.StaleIsKept | internal/mtproto/manager.go:294-311 | With a bar in a text, an Ensure for a different config can succeed without touching the running process. |
| MtgManager.Manager.Ensure | internal/mtproto/manager.go:304-356 | The imperative ensureLocked equals the specification. |
| MtgManager.Manager.Remove | internal/mtproto/manager.go:359-368 | So does Remove. |
| MtgManager.Manager.Reconcile | internal/mtproto/manager.go:373-393 | Afterwards only wanted inbounds have processes, and every one whose steps did not fail serves what is wanted. |
| DnsOutbound.RulesAnswerAsLegacy | internal/database/db.go:2557-2593 | For every mode, every block list over 0..65535 and every query type, first-match evaluation of the generated rules gives the legacy answer, a lone type 0 included. |
| DnsOutbound.SelectsExactly | internal/database/db.go:2579-2590 | The generated selector covers exactly the blocked types. |
| DnsOutbound.OldZeroBlocksEverything | internal/database/db.go:2592-2594 | The numeric 0 an earlier release stored blocked every query. |
| DnsOutbound.RepairedIsCurrent | internal/database/db.go:2623-2656 | The repair turns what that release stored into exactly what the builder stores now. |
| OutboundRewrites.DnsRewriteKeepsMeaning | internal/database/db.go:2473-2522 | A dns outbound whose legacy keys decided answers every query type as before once rewritten. |
| OutboundRewrites.EveryShapeReads | internal/database/db.go:2537-2553 | A list of numbers, one number and a comma-separated string read as the same block list. |
| OutboundRewrites.CollectBlockTypes | internal/database/db.go:2537-2553 | The nested loops give the specified list, every entry in 0..65535. |
| OutboundRewrites.FreedomLeavesNoLegacy | internal/database/db.go:2078-2143 | A freedom outbound runs with the same strategy after the rewrite, and no legacy strategy key is left. |
| OutboundRewrites.WireguardSplits | internal/database/db.go:2191-2246 | No legacy key is left; sockopt and targetStrategy take the pinned family unless already set, local DNS becomes ForceIP. |
| OutboundRewrites.RemovedKeysKeepDialer | internal/database/db.go:1981-2027 | No refused key is left, the outbound dials through the same proxy, and only freedom loses addressPortStrategy. |
| TemplateRewrites.FlaggedIff | internal/database/db.go:1981-2656 | Each rewriter sets its changed flag if and only if the outbound differs. |
| TemplateRewrites.OnlyOwnProtocol | internal/database/db.go:1981-2656 | An outbound of another protocol is left alone; only the removal of proxySettings looks at them all. |
| TemplateRewrites.Idempotent | internal/database/db.go:1981-2656 | Rewriting a template twice is rewriting it once. |
| TemplateRewrites.Rewrite | internal/database/db.go:1981-2656 | The in-place loop over the outbounds gives the specified template and reports a change if and only if there is one. |
| UniqueNames.TriesAreBounded | internal/awg/import_parse.go:326-332 | Among the first one more than the number of used names candidates one is free, by counting distinct decimal suffixes. |
| UniqueNames.FirstFree | internal/awg/import_parse.go:326-332 | The counting loop ends within one more than the number of used names tries on the first free candidate. |
| UniqueNames.FirstFreeIsUnique | internal/database/db.go:713-720 | There is only one such name, so it does not depend on how it is searched for. |
| UniqueNames.WireguardPeerEmail | internal/database/db.go:704-721 | The migrated peer's email is the first free candidate of its base and is not in use. |
| UniqueNames.MtprotoClientEmail | internal/database/db.go:868-881 | The migrated client's email is the first free candidate of its base and is not in use. |
| UniqueNames.SanitizeEmail | internal/awg/import_parse.go:312-333 | The imported email is lower-case, free, taken by the call, and the first free candidate of its base. |
| UniqueNames.BuildClients | internal/awg/import_build.go:30-71 | Every peer gets its row, with emails pairwise different and different from every reserved one, case aside, and the count of peers without a private key is exact. |
| Obfuscation.ParsePrinted | internal/amneziawg/params.go:440-458 | Printing a range and parsing it back gives it back. |
| Obfuscation.HeadersAreDisjoint | internal/amneziawg/params.go:419-436 | Accepted headers are four non-empty intervals of message types no two of which share a value, and so does the rendered config read. |
| Obfuscation.RenderedHeaderInterval | internal/amneziawgkern/config.go:230-235 | The text rendered for a header denotes the interval the validator checked. |
| Obfuscation.AcceptedRenewsIff | internal/amneziawg/params.go:235-249 | Accepted parameters have every possible rekey before every possible reject if and only if RekeyAfterTime is not a white-space value with a reject that may start at 120 or below. |
| Obfuscation.BlankRekeySlipsThrough | internal/amneziawg/params.go:237-248 | Such parameters are accepted, for every reject range that starts at 120 or below. |
| Obfuscation.BlankRejectIsRefused | internal/amneziawg/params.go:237-248 | A white-space RejectAfterTime is never accepted. |
| Obfuscation.CanonicalKeepsRange | internal/amneziawg/params.go:286-290 | Storing the canonical form changes no range that parses. |
| Obfuscation.CanonicalAcceptedRenews | internal/web/service/inbound_amneziawg.go:327-334 | Canonicalising before validating, as the save path does, closes the gap. |
| Obfuscation.CheckNoOverlap | internal/amneziawg/params.go:419-436 | The nested loops decide pairwise disjointness. |
| Obfuscation.DrawSizes | internal/amneziawg/params.go:60-66 | The retry loop ends with two sizes whose padded packets differ. |
| Obfuscation.GenerateHValues | internal/amneziawg/params.go:125-135 | The four generated headers are valid, disjoint and clear of the vanilla types. |
| Obfuscation.GenerateObfuscation31 | internal/amneziawg/params.go:51-111 | Whatever is drawn, the generated set is accepted by the server validation and renews in time. |
| ForwardedPorts.ParsedSpecsCover | internal/amneziawg/portfwd.go:20-46 | Dropping repeated specs loses no port: the specs cover exactly what some token names. |
| ForwardedPorts.ExpandIs | internal/amneziawg/portfwd.go:108-142 | The expansion is an ascending list of covered ports, as many as are covered up to the limit, and all of them when they fit. |
| ForwardedPorts.ExceedsCapIff | internal/amneziawg/portfwd.go:117-119 | The cap test is true if and only if more than 100 ports are covered. |
| ForwardedPorts.ParseLoop | internal/amneziawg/portfwd.go:20-46 | The token loop with its seen map equals the specification. |
| ForwardedPorts.FillLoop | internal/amneziawg/portfwd.go:124-142 | The nested loops with their labelled break equal the specification. |
| ForwardedPorts.ForwardedPortsInclude | internal/amneziawg/portfwd.go:85-92 | The loop decides coverage. |
| PortForwards.TargetsIs | internal/amneziawgnet/portfwd.go:115-135 | A peer has a target if and only if some peer of that email has a resolvable address. |
| PortForwards.WantedIff | internal/amneziawgnet/portfwd.go:139-165 | A listener is wanted if and only if the email resolves and one of its specs covers the port within the cap. |
| PortForwards.DesiredKeys | internal/amneziawgnet/portfwd.go:156-165 | The loops give exactly the wanted keys, on both protocols. |
| PortForwards.ForwardedPortOwner | internal/amneziawgnet/portfwd.go:169-178 | A port has an owner if and only if a listener is wanted for it, and the owner's listeners are. |
| PortForwards.PortForwardSet.Reconcile | internal/amneziawgnet/portfwd.go:186-225 | Afterwards the open keys are the wanted ones less those that failed to bind now; surviving listeners are the same ones; every other listener ever opened was closed exactly once. |
| PortForwards.PortForwardSet.Close | internal/amneziawgnet/portfwd.go:241-249 | Every listener ever opened is closed exactly once. |
| SocksWire.ReceiveEncoded | internal/amneziawgnet/relay.go:304-345 | For every zone-free address, port and payload, the relay decodes the encoder's bytes to them. |
| SocksWire.DispatchEncoded | internal/amneziawgnet/egress.go:550-570 | So does the egress. |
| SocksWire.ReceiveInverts | internal/amneziawgnet/relay.go:327-375 | An address datagram the relay accepts is, reserved bytes aside, what encoding the result gives. |
| SocksWire.DecodersAgree | internal/amneziawgnet/egress.go:687-720 | On every byte string that carries an address, relay and egress decode the same or both refuse. |
| SocksWire.DispatchEncodedName | internal/amneziawgnet/egress.go:672-684 | A name datagram is decoded to its name, port and payload. |
| SocksWire.AppendDatagram | internal/amneziawgnet/relay.go:304-323 | The header built by append is the specified encoding. |
| SocksWire.AuthRoundTripsIff | internal/amneziawgnet/egress.go:268-294 | The server reads the pair the client sent if and only if both lengths are at most 255. |
| AwgConfRoundTrip.RenderedParses | internal/awg/import_parse.go:76-160 | For every device and peer list, the importer reads each key as exactly what the version gates let the renderer write, and every peer with a key, in order. |
| AwgImport.RenderedImports | internal/awg/import_parse.go:76-231 | Importing a rendered config gives back the device as stored, less exactly what the version, module and netlink gates keep out of the file, and every peer, in order: texts, numbers, timers, flags and detected version. |
| AwgImport.DetectedIsNoNewerIff | internal/awg/import_parse.go:242-258 | A rendered config is never taken for a newer version than the device's own, with one exact exception: a 1.5 device with a ranged header is taken for version 2. |
| AwgConfRoundTrip.FingerprintMovesIff | internal/awg/instance.go:174-177 | Changing the peers moves the device fingerprint if and only if it changes the hook scripts. |
| AwgConfRoundTrip.FingerprintIgnoresPeers | internal/awg/instance.go:174-177 | So peer changes never bounce an interface that is not TPROXY, or whose peers are valid for it. |
| AwgConfRoundTrip.StripIsIdempotent | internal/awg/manager.go:1088-1113 | Stripping any text twice is stripping it once. |
| AwgConfRoundTrip.StripPrinted | internal/awg/manager.go:1088-1113 | Stripping a rendering removes the awg-quick keys of the interface and nothing else. |
| AwgConfRoundTrip.StrippedParses | internal/awg/manager.go:1088-1113 | The stripped text still reads as the same interface without those keys, and the same peers. |
| AwgConf.ParseLoop | internal/awg/import_parse.go:97-154 | The line loop equals the specified parser. |
| AwgConf.StripLoop | internal/awg/manager.go:1088-1113 | The loop with its newline rule equals the specified filter. |

## Left out

- Process execution, files, sockets, sysfs, HTTP and SQL: commands and reads are steps with a fate, maps, or parameters.
- The host of the kernel model is the one the repository's own tests use: adding an address a link already has succeeds, and nft and iptables are a table and a list of tagged rules.
- X25519, SHA-256 and base64 are function parameters; the structural fingerprint is taken as the tuple it hashes.
- buildSpec's address parsing and default-interface lookup: a spec's addresses, NAT chain and egress are given; None stands for a refused instance.
- Dropping the collector's state inside a teardown: the kernel modules and the collector are modelled separately.
- Logging, error texts and platform stubs: validators answer yes or no, methods report success, error or death.
- KernelReconcile.ReconcileConverges: for wanted specs whose private key a public key derives from; setconf refuses any other, and what its Ensure then leaves is the subject of LeftoverClearableIff and UnclearableIsReachable.
- KernelRestart.RestartConverges: for runs off the stale-entry path; KeyLostIffStale says when that path loses the key.
- MtgConfig.ToldFromAllIff: for listen addresses without the joining bar, as addresses are.
- ChanBridge, UdpRelay: modelled as state machines over atomic actions rather than as classes, because the order of the actions of different goroutines is the point; byte streams of the connections are not modelled.
- EventBus: event payloads, panics of handlers and a second Stop, which the code forbids, are not modelled; an event is the serial number of its Publish call.
- SidecarTraffic: one inbound and one direction in the state machine; the loops carry both directions.
- TrafficCollector: kernel counters are naturals; a negative reading in a dump, which the parser would accept, is not modelled. endpointHost is a field of a dump row.
- Obfuscation: the endless retry of S2 under a source that keeps drawing the one bad value is cut by the source running dry, which makes randInt return its minimum.
- Json: case folding covers ASCII letters only; JSON decoding and encoding are left out, so a template is its decoded value.
- OutboundRewrites: fmt.Sprint is a parameter, fixed on strings and integers.
- AwgConf: hook scripts, validateTproxy and the netlink budget are parameters; the parser's loop state keeps the last text per key, from which AwgImport.Import makes the struct ParseServerConf returns.
- PortForwards: Reconcile and Close of one set do not overlap (the manager's lock orders them); sockets are numbers, a bind outcome is a parameter.
- MtgManager: stopping a process always works, the orphan sweep at startup and API tokens are left out, and clients are taken to have different names.
- mtproto's TOML rendering, import discovery, ParseDump and the remaining template rewriters would only add members of the same kinds.
