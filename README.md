# MCCoroutine, sequential core in Dafny

MCCoroutine runs Kotlin coroutines on the schedulers of Minecraft servers and
proxies (Bukkit, Folia, Minestom, Fabric, Sponge, BungeeCord, Velocity). Under
its concurrency glue sits a layer of sequential bookkeeping. This project
models that layer and proves what it promises:

- the session registries (`MCCoroutineImpl` of every platform): one coroutine
  session per plugin, created on first lookup and disposed and removed by
  `disable`; plus Velocity's explicit `setupCoroutineSession` (`registries.dfy`);
- the coroutine sessions' launch guard, start mode, exception-report policy,
  dispatcher selection and `dispose` (`sessions.dfy`);
- every platform's coroutine dispatchers: whether a dispatch is needed and
  whether a block runs inline, is handed to a scheduler or is dropped
  (`dispatchers_bukkit.dfy`, `dispatchers_legacy.dfy`, `dispatchers_folia.dfy`,
  `dispatchers_platforms.dfy`, `dispatchers_test.dfy`);
- the two tick queues: Folia's `MainDispatcher` and `CoroutineTimings`
  (`tick_queues.dfy`);
- the wake-up block services' `ensureWakeup` state machine (`wake_up.dfy`);
- suspending events: the Bukkit, Folia and legacy Bukkit event services
  (`event_fan_out.dfy`) and BungeeCord's handler registration and baking
  (`bungee_events.dfy`);
- the legacy packet service (`protocol.dfy`) and the plugin listeners
  (`plugin_listeners.dfy`);
- the small helpers of the public API files (`api_helpers.dfy`);
- the sample plugins' `UserDataCache` and packet-type lookup (`samples.dfy`).

`runtime.dfy` holds the shared vocabulary. Some things are inputs to the
model: the current thread, whether a plugin is enabled, and whether a scope
is still active. A server scheduler is the list of tasks handed to it, and a
dispatch call is the ordered list of effects it performs. An object whose
fields the source updates in place is a Dafny `class`. Its methods are tied
by their `ensures` to pure functions, and the lemmas are proved about those
functions.

## Model

| member | source | states |
|---|---|---|
| Registries.Lookup | mccoroutine-bukkit-core/src/main/java/com/github/shynixn/mccoroutine/bukkit/impl/MCCoroutineImpl.kt:17-23 | a key with a session gets that session and the registry is unchanged; a key without one gets a new session, distinct from every stored one, when the plugin may start one, and otherwise a PluginDisabled failure with nothing changed; every other key keeps its session |
| Registries.Release | mccoroutine-bukkit-core/src/main/java/com/github/shynixn/mccoroutine/bukkit/impl/MCCoroutineImpl.kt:28-36 | an unknown key is a no-op; otherwise the stored session is the one disposed, only its key is removed, and that session is retired (stored under no key) |
| Registries.LookupTwiceSameSession | mccoroutine-bukkit-core/src/main/java/com/github/shynixn/mccoroutine/bukkit/impl/MCCoroutineImpl.kt:17-23 | two lookups of the same key in a row return the same session and the second changes nothing, whatever the plugin's state at the second call |
| Registries.RetiredStaysRetired | mccoroutine-bukkit-core/src/main/java/com/github/shynixn/mccoroutine/bukkit/impl/MCCoroutineImpl.kt:17-48 | a retired session stays retired through any run of lookups and disables, and no lookup of the run returns it |
| Registries.DisposedNeverReturned | mccoroutine-bukkit-core/src/main/java/com/github/shynixn/mccoroutine/bukkit/impl/MCCoroutineImpl.kt:28-36 | after disable, the disposed session is never handed out again by later lookups |
| Registries.BukkitMCCoroutine.StartCoroutineSession | mccoroutine-bukkit-core/src/main/java/com/github/shynixn/mccoroutine/bukkit/impl/MCCoroutineImpl.kt:41-50 | a disabled plugin throws and nothing changes; otherwise a new session is stored under the plugin and then its PluginListener is registered. Also: the legacy Bukkit registry starts sessions by the same rule (disabled plugins throw) (mccoroutine-bukkit-core/…/impl/MCCoroutineImpl.kt:41-49) |
| Registries.BukkitMCCoroutine.GetCoroutineSession | mccoroutine-bukkit-core/src/main/java/com/github/shynixn/mccoroutine/bukkit/impl/MCCoroutineImpl.kt:17-23 | the registry and the result are those of Lookup; a session is started (and the listener registered) only for an absent, enabled plugin. Also: the legacy Bukkit lookup: same session on repeat, a session only for an absent enabled plugin (mccoroutine-bukkit-core/…/impl/MCCoroutineImpl.kt:17-23) |
| Registries.BukkitMCCoroutine.Disable | mccoroutine-bukkit-core/src/main/java/com/github/shynixn/mccoroutine/bukkit/impl/MCCoroutineImpl.kt:28-36 | the registry becomes that of Release; the stored session is disposed exactly when the plugin had one. Also: the legacy Bukkit disable: no-op for an unknown plugin, otherwise dispose and remove only that key (mccoroutine-bukkit-core/…/impl/MCCoroutineImpl.kt:28-36) |
| Registries.BungeeCordMCCoroutine.GetCoroutineSession | mccoroutine-bungeecord-core/src/main/java/com/github/shynixn/mccoroutine/bungeecord/impl/MCCoroutineImpl.kt:15-45 | the registry and result are those of Lookup: a disabled plugin without a session throws, no listener is registered |
| Registries.BungeeCordMCCoroutine.Disable | mccoroutine-bungeecord-core/src/main/java/com/github/shynixn/mccoroutine/bungeecord/impl/MCCoroutineImpl.kt:26-34 | no-op for an unknown plugin; otherwise its session is disposed and only its key removed |
| Registries.UncheckedMCCoroutine.GetCoroutineSession | mccoroutine-fabric-core/src/main/java/com/github/shynixn/mccoroutine/fabric/impl/MCCoroutineImpl.kt:13-40 | Fabric: a lookup always succeeds (there is no enabled check) and returns the stored session or a new one stored under the handler. Also: Sponge: the same unchecked get-or-start (mccoroutine-sponge-core/…/impl/MCCoroutineImpl.kt:16-43) |
| Registries.UncheckedMCCoroutine.Disable | mccoroutine-fabric-core/src/main/java/com/github/shynixn/mccoroutine/fabric/impl/MCCoroutineImpl.kt:24-32 | Fabric: no-op for an unknown handler; otherwise dispose and remove only that key. Also: Sponge: no-op for an unknown plugin; otherwise dispose and remove only that key (mccoroutine-sponge-core/…/impl/MCCoroutineImpl.kt:27-35) |
| Registries.MinestomMCCoroutine.StartCoroutineSession | mccoroutine-minestom-core/src/main/java/com/github/shynixn/mccoroutine/minestom/impl/MCCoroutineImpl.kt:64-66 | a new session is stored under the owner, without any enabled check |
| Registries.MinestomMCCoroutine.GetExtensionSession | mccoroutine-minestom-core/src/main/java/com/github/shynixn/mccoroutine/minestom/impl/MCCoroutineImpl.kt:15-21 | the extension overload: result and registry are those of Lookup with starting always allowed; the log gains the start of a new session exactly when the extension had none |
| Registries.MinestomMCCoroutine.GetServerSession | mccoroutine-minestom-core/src/main/java/com/github/shynixn/mccoroutine/minestom/impl/MCCoroutineImpl.kt:27-33 | the server overload: the same rule under the server's own key; the log gains the start of a new session exactly when the server had none |
| Registries.MinestomMCCoroutine.DisableExtension | mccoroutine-minestom-core/src/main/java/com/github/shynixn/mccoroutine/minestom/impl/MCCoroutineImpl.kt:38-46 | Release of the extension's key; the disposed session is logged only when there was one |
| Registries.MinestomMCCoroutine.DisableServer | mccoroutine-minestom-core/src/main/java/com/github/shynixn/mccoroutine/minestom/impl/MCCoroutineImpl.kt:51-59 | Release of the server's key |
| Registries.ServerAndExtensionAreSeparate | mccoroutine-minestom-core/src/main/java/com/github/shynixn/mccoroutine/minestom/impl/MCCoroutineImpl.kt:15-33 | the server and an extension get distinct sessions under distinct entries of the one map, and the server's survives the extension's lookup |
| Registries.TestMCCoroutine.GetCoroutineSession | mccoroutine-bukkit-test/src/main/java/com/github/shynixn/mccoroutine/bukkit/test/impl/TestMCCoroutineImpl.kt:13-21 | the test registry's get-or-start, with no enabled check |
| Registries.TestMCCoroutine.Disable | mccoroutine-bukkit-test/src/main/java/com/github/shynixn/mccoroutine/bukkit/test/impl/TestMCCoroutineImpl.kt:23-28 | the key is removed first and the removed session is then disposed; an absent plugin changes nothing |
| Registries.SetupAsWritten | mccoroutine-velocity-core/src/main/java/com/github/shynixn/mccoroutine/velocity/impl/MCCoroutineImpl.kt:27-38 | setupCoroutineSession as written: the `contains` guard never fires, so every setup of an enabled plugin stores a new session, and a disabled one throws |
| Registries.SetupAsWrittenReplacesSession | mccoroutine-velocity-core/src/main/java/com/github/shynixn/mccoroutine/velocity/impl/MCCoroutineImpl.kt:28-37 | as written, a second setup replaces the live session of a set-up plugin, which is left undisposed and unreachable |
| Registries.Setup | mccoroutine-velocity-core/src/main/java/com/github/shynixn/mccoroutine/velocity/impl/MCCoroutineImpl.kt:27-38 | with the intended `containsKey` guard: a set-up plugin is left alone, a disabled one throws and nothing is stored, otherwise a new session is stored |
| Registries.SetupTwiceKeepsSession | mccoroutine-velocity-core/src/main/java/com/github/shynixn/mccoroutine/velocity/impl/MCCoroutineImpl.kt:27-38 | with the intended guard, a second setup changes nothing, whatever the plugin's state |
| Registries.VelocityLookup | mccoroutine-velocity-core/src/main/java/com/github/shynixn/mccoroutine/velocity/impl/MCCoroutineImpl.kt:16-22 | a plugin that was never set up fails with NotSetUp; otherwise its stored session is returned |
| Registries.LookupAfterSetup | mccoroutine-velocity-core/src/main/java/com/github/shynixn/mccoroutine/velocity/impl/MCCoroutineImpl.kt:16-38 | after a successful setup every lookup succeeds, and returns the first session when the plugin was set up already |
| Registries.VelocityMCCoroutine.GetCoroutineSession | mccoroutine-velocity-core/src/main/java/com/github/shynixn/mccoroutine/velocity/impl/MCCoroutineImpl.kt:16-22 | equals VelocityLookup of the registry's state |
| Registries.VelocityMCCoroutine.SetupCoroutineSession | mccoroutine-velocity-core/src/main/java/com/github/shynixn/mccoroutine/velocity/impl/MCCoroutineImpl.kt:27-38 | the new state and the thrown failure are those of Setup (the corrected guard) |
| Registries.VelocityMCCoroutine.Disable | mccoroutine-velocity-core/src/main/java/com/github/shynixn/mccoroutine/velocity/impl/MCCoroutineImpl.kt:43-51 | Release of the plugin's key; the disposed session is logged only when there was one |
| Sessions.Admit | mccoroutine-bukkit-core/src/main/java/com/github/shynixn/mccoroutine/service/CoroutineSessionImpl.kt:72-75 | a disposed or inactive scope starts nothing and returns an inert job; an open one appends the coroutine and returns its position |
| Sessions.ClosedScopeStartsNothing | mccoroutine-bukkit-core/src/main/java/com/github/shynixn/mccoroutine/service/CoroutineSessionImpl.kt:72-75 | any number of launches on a disposed session leave its coroutines unchanged and all return inert jobs |
| Sessions.OpenScopeStartsInOrder | mccoroutine-bukkit-core/src/main/java/com/github/shynixn/mccoroutine/service/CoroutineSessionImpl.kt:72-83 | launches on an open session start their coroutines in call order, each at the next position |
| Sessions.UnconfinedStart | mccoroutine-bukkit-core/src/main/java/com/github/shynixn/mccoroutine/service/CoroutineSessionImpl.kt:76-82 | a coroutine starts UNDISPATCHED exactly when its context is Dispatchers.Unconfined, DEFAULT otherwise |
| Sessions.BungeeCordStart | mccoroutine-bungeecord-core/src/main/java/com/github/shynixn/mccoroutine/impl/CoroutineSessionImpl.kt:71-77 | UNDISPATCHED exactly for Dispatchers.Unconfined and the session's own unconfined dispatcher, DEFAULT otherwise |
| Sessions.BungeeCordStartDiffersOnlyOnOwnUnconfined | mccoroutine-bungeecord-core/src/main/java/com/github/shynixn/mccoroutine/impl/CoroutineSessionImpl.kt:67-78 | the two BungeeCord dispatchers start differently, and the BungeeCord rule agrees with the Bukkit one on every other context |
| Sessions.LegacyHandling | mccoroutine-bukkit-core/src/main/java/com/github/shynixn/mccoroutine/service/CoroutineSessionImpl.kt:88-111 | a cancellation is logged at INFO, another Exception at SEVERE, and a non-Exception throwable escapes. Also: the BungeeCord session handles failures by the same rule (mccoroutine-bungeecord-core/…/impl/CoroutineSessionImpl.kt:83-106) |
| Sessions.SpongeHandling | mccoroutine-sponge-core/src/main/java/com/github/shynixn/mccoroutine/service/CoroutineSessionImpl.kt:80-102 | a cancellation is logged at debug, another Exception at error, and a non-Exception throwable escapes |
| Sessions.RootHandling | mccoroutine-bukkit-core/src/main/java/com/github/shynixn/mccoroutine/impl/CoroutineSessionImpl.kt:70-80 | the root handler logs every failure: cancellations at INFO, everything else at SEVERE |
| Sessions.SpongeLogsWhatLegacyLogs | mccoroutine-sponge-core/src/main/java/com/github/shynixn/mccoroutine/service/CoroutineSessionImpl.kt:93-101 | Sponge and the legacy policy log the same failures; the root handler agrees with the legacy policy except on non-Exception throwables |
| Sessions.LegacyBukkitSession.Launch | mccoroutine-bukkit-core/src/main/java/com/github/shynixn/mccoroutine/service/CoroutineSessionImpl.kt:72-83 | the new coroutine list and job are Admit of the disposed flag and the Unconfined start rule |
| Sessions.LegacyBukkitSession.LaunchInternal | mccoroutine-bukkit-core/src/main/java/com/github/shynixn/mccoroutine/service/CoroutineSessionImpl.kt:88-95 | the coroutine is appended with the given start mode and its position returned |
| Sessions.LegacyBukkitSession.Dispose | mccoroutine-bukkit-core/src/main/java/com/github/shynixn/mccoroutine/service/CoroutineSessionImpl.kt:63-67 | the disposed flag is set, children are cancelled and the wake-up service is disposed; started coroutines stay |
| Sessions.SpongeSession.Launch | mccoroutine-sponge-core/src/main/java/com/github/shynixn/mccoroutine/service/CoroutineSessionImpl.kt:64-75 | Admit of the disposed flag and the Unconfined start rule |
| Sessions.SpongeSession.Dispose | mccoroutine-sponge-core/src/main/java/com/github/shynixn/mccoroutine/service/CoroutineSessionImpl.kt:56-59 | the disposed flag is set and children are cancelled |
| Sessions.BungeeCordSession.Launch | mccoroutine-bungeecord-core/src/main/java/com/github/shynixn/mccoroutine/impl/CoroutineSessionImpl.kt:67-78 | Admit of the disposed flag and the BungeeCord start rule |
| Sessions.BungeeCordSession.Dispose | mccoroutine-bungeecord-core/src/main/java/com/github/shynixn/mccoroutine/impl/CoroutineSessionImpl.kt:59-62 | the disposed flag is set and children are cancelled |
| Sessions.ScopedBukkitSession.Launch | mccoroutine-bukkit-core/src/main/java/com/github/shynixn/mccoroutine/impl/CoroutineSessionImpl.kt:95-105 | an inactive scope returns an inert job; otherwise the context and start mode are passed on unchanged |
| Sessions.ScopedBukkitSession.Dispose | mccoroutine-bukkit-core/src/main/java/com/github/shynixn/mccoroutine/impl/CoroutineSessionImpl.kt:110-113 | the scope is cancelled and the wake-up service is disposed |
| Sessions.BukkitReport | mccoroutine-bukkit-core/src/main/java/com/github/shynixn/mccoroutine/bukkit/impl/CoroutineSessionImpl.kt:71-89 | the exception event is posted on the main thread exactly when the plugin is enabled; the failure is logged exactly when it was posted, not cancelled by a listener, and not a cancellation |
| Sessions.FoliaReport | mccoroutine-folia-core/src/main/java/com/github/shynixn/mccoroutine/folia/impl/CoroutineSessionImpl.kt:138-156 | the same policy, posted on the global region (or the Bukkit main thread without Folia) |
| Sessions.ReportPolicies | mccoroutine-folia-core/src/main/java/com/github/shynixn/mccoroutine/folia/impl/CoroutineSessionImpl.kt:141-153 | a failure is logged only after its event is posted; cancellations never are; Folia and Bukkit log alike and coincide without Folia |
| Sessions.BukkitSession.HeartBeatEnabled | mccoroutine-bukkit-core/src/main/java/com/github/shynixn/mccoroutine/bukkit/impl/CoroutineSessionImpl.kt:61-64 | the getter reads the wake-up service's flag |
| Sessions.BukkitSession.SetHeartBeatEnabled | mccoroutine-bukkit-core/src/main/java/com/github/shynixn/mccoroutine/bukkit/impl/CoroutineSessionImpl.kt:65-67 | the setter writes the wake-up service's flag and nothing else of it |
| Sessions.BukkitSession.Dispose | mccoroutine-bukkit-core/src/main/java/com/github/shynixn/mccoroutine/bukkit/impl/CoroutineSessionImpl.kt:138-142 | children and scope are cancelled and the wake-up service ends in AfterDispose of its old state |
| Sessions.GlobalDispatcher | mccoroutine-folia-core/src/main/java/com/github/shynixn/mccoroutine/folia/impl/CoroutineSessionImpl.kt:69-75 | Folia's global region dispatcher exactly when Folia is loaded, the Bukkit minecraft dispatcher otherwise |
| Sessions.AsyncDispatcher | mccoroutine-folia-core/src/main/java/com/github/shynixn/mccoroutine/folia/impl/CoroutineSessionImpl.kt:80-86 | Folia's async dispatcher exactly when Folia is loaded, the Bukkit async dispatcher otherwise |
| Sessions.RegionDispatcherOf | mccoroutine-folia-core/src/main/java/com/github/shynixn/mccoroutine/folia/impl/CoroutineSessionImpl.kt:98-104 | the chunk's region dispatcher with Folia, the global dispatcher without it |
| Sessions.EntityDispatcherOf | mccoroutine-folia-core/src/main/java/com/github/shynixn/mccoroutine/folia/impl/CoroutineSessionImpl.kt:109-115 | the entity's dispatcher with Folia, the global dispatcher without it |
| Sessions.FoliaSelection | mccoroutine-folia-core/src/main/java/com/github/shynixn/mccoroutine/folia/impl/CoroutineSessionImpl.kt:98-115 | without Folia region and entity lookups both give the Bukkit minecraft dispatcher; with it the region, entity and global dispatchers are all distinct |
| Sessions.FoliaSession.HeartBeatEnabled | mccoroutine-folia-core/src/main/java/com/github/shynixn/mccoroutine/folia/impl/CoroutineSessionImpl.kt:120-123 | the getter reads the wake-up service's flag |
| Sessions.FoliaSession.SetHeartBeatEnabled | mccoroutine-folia-core/src/main/java/com/github/shynixn/mccoroutine/folia/impl/CoroutineSessionImpl.kt:124-126 | the setter writes the flag and leaves the service's disposal alone |
| Sessions.FoliaSession.MainThreadId | mccoroutine-folia-core/src/main/java/com/github/shynixn/mccoroutine/folia/impl/CoroutineSessionImpl.kt:131-134 | dispatcherMainThreadId is the main dispatcher's thread id |
| Sessions.FoliaSession.Dispose | mccoroutine-folia-core/src/main/java/com/github/shynixn/mccoroutine/folia/impl/CoroutineSessionImpl.kt:209-214 | the scope is cancelled, the main dispatcher is closed and the wake-up service is disposed |
| WakeUp.Retire | mccoroutine-bukkit-core/src/main/java/com/github/shynixn/mccoroutine/bukkit/service/WakeUpBlockServiceImpl.kt:41-48 | with the hack off, an existing executor is shut down and forgotten (logged as retired), nothing else changes, and with no executor the call changes nothing |
| WakeUp.SubmitHeartbeat | mccoroutine-bukkit-core/src/main/java/com/github/shynixn/mccoroutine/bukkit/service/WakeUpBlockServiceImpl.kt:59-70 | an executor is created only when there is none; the heartbeat task is accepted exactly when that executor is not shut down, raising its task count by one, and rejected otherwise |
| WakeUp.Ensure | mccoroutine-bukkit-core/src/main/java/com/github/shynixn/mccoroutine/bukkit/service/WakeUpBlockServiceImpl.kt:40-71 | hack off: Retire; hack on: the primary thread is recorded only if unknown and the call is on it; no task while it is unknown; a task is submitted exactly when the hack is on and the primary thread known; an existing executor is reused |
| WakeUp.EnsureLegacy | mccoroutine-bukkit-core/src/main/java/com/github/shynixn/mccoroutine/service/WakeUpBlockServiceImpl.kt:38-64 | the legacy rule: the primary thread is never recorded here; hack off retires the executor; a task is submitted exactly when the hack is on and the primary thread was set |
| WakeUp.AfterDispose | mccoroutine-bukkit-core/src/main/java/com/github/shynixn/mccoroutine/bukkit/service/WakeUpBlockServiceImpl.kt:76-78 | dispose shuts an existing executor down but keeps the reference; everything else is unchanged |
| WakeUp.AtMostOneExecutor | mccoroutine-bukkit-core/src/main/java/com/github/shynixn/mccoroutine/bukkit/service/WakeUpBlockServiceImpl.kt:59-61 | while the hack stays on, any run of ensureWakeup calls creates at most one executor, none when one exists, and keeps that executor |
| WakeUp.PrimaryThreadIsStable | mccoroutine-bukkit-core/src/main/java/com/github/shynixn/mccoroutine/bukkit/service/WakeUpBlockServiceImpl.kt:51-53 | once the primary thread is known, no run of ensureWakeup calls changes it |
| WakeUp.WakeUpBlockService.constructor | mccoroutine-bukkit-core/src/main/java/com/github/shynixn/mccoroutine/bukkit/service/WakeUpBlockServiceImpl.kt:13-34 | the hack starts switched off, with no primary thread and no executor |
| WakeUp.WakeUpBlockService.SetHeartBeat | mccoroutine-bukkit-core/src/main/java/com/github/shynixn/mccoroutine/bukkit/service/WakeUpBlockServiceImpl.kt:29 | only the heartbeat flag changes |
| WakeUp.WakeUpBlockService.EnsureWakeup | mccoroutine-bukkit-core/src/main/java/com/github/shynixn/mccoroutine/bukkit/service/WakeUpBlockServiceImpl.kt:40-71 | the new state and outcome are those of Ensure |
| WakeUp.WakeUpBlockService.SubmitToExecutor | mccoroutine-bukkit-core/src/main/java/com/github/shynixn/mccoroutine/bukkit/service/WakeUpBlockServiceImpl.kt:59-70 | the new state and outcome are those of SubmitHeartbeat |
| WakeUp.WakeUpBlockService.Dispose | mccoroutine-bukkit-core/src/main/java/com/github/shynixn/mccoroutine/bukkit/service/WakeUpBlockServiceImpl.kt:76-78 | the new state is AfterDispose of the old one |
| WakeUp.LegacyWakeUpBlockService.constructor | mccoroutine-bukkit-core/src/main/java/com/github/shynixn/mccoroutine/service/WakeUpBlockServiceImpl.kt:11-32 | the legacy hack starts switched on, with no primary thread and no executor |
| WakeUp.LegacyWakeUpBlockService.SetHeartBeat | mccoroutine-bukkit-core/src/main/java/com/github/shynixn/mccoroutine/service/WakeUpBlockServiceImpl.kt:27 | only the heartbeat flag changes |
| WakeUp.LegacyWakeUpBlockService.SetPrimaryThread | mccoroutine-bukkit-core/src/main/java/com/github/shynixn/mccoroutine/service/WakeUpBlockServiceImpl.kt:32 | only the primary thread changes |
| WakeUp.LegacyWakeUpBlockService.EnsureWakeup | mccoroutine-bukkit-core/src/main/java/com/github/shynixn/mccoroutine/service/WakeUpBlockServiceImpl.kt:38-64 | the new state and outcome are those of EnsureLegacy |
| WakeUp.LegacyWakeUpBlockService.Dispose | mccoroutine-bukkit-core/src/main/java/com/github/shynixn/mccoroutine/service/WakeUpBlockServiceImpl.kt:69-71 | the new state is AfterDispose of the old one |
| TickQueues.ConcatSnoc | mccoroutine-folia-core/src/main/java/com/github/shynixn/mccoroutine/folia/dispatcher/MainDispatcher.kt:30-32 | the blocks posted during a batch, concatenated, grow by exactly the last block's arrivals |
| TickQueues.MainDispatcher.constructor | mccoroutine-folia-core/src/main/java/com/github/shynixn/mccoroutine/folia/dispatcher/MainDispatcher.kt:17-18 | the queue starts empty and threadId starts at -1 |
| TickQueues.MainDispatcher.RecordExecutorThread | mccoroutine-folia-core/src/main/java/com/github/shynixn/mccoroutine/folia/dispatcher/MainDispatcher.kt:21-23 | the first executor task records the executor thread as threadId |
| TickQueues.MainDispatcher.Dispatch | mccoroutine-folia-core/src/main/java/com/github/shynixn/mccoroutine/folia/dispatcher/MainDispatcher.kt:39-49 | a disabled plugin neither queues nor runs the block; on the executor thread it runs at once and the queue is unchanged; from any other thread (always, while threadId is -1) it is appended and does not run |
| TickQueues.MainDispatcher.Tick | mccoroutine-folia-core/src/main/java/com/github/shynixn/mccoroutine/folia/dispatcher/MainDispatcher.kt:24-33 | a tick runs exactly the blocks queued at its start, in FIFO order, and leaves queued exactly the blocks posted while the batch ran, in posting order |
| TickQueues.MainDispatcher.Close | mccoroutine-folia-core/src/main/java/com/github/shynixn/mccoroutine/folia/dispatcher/MainDispatcher.kt:60-62 | the executor is shut down |
| TickQueues.Poll | mccoroutine-bukkit-api/src/main/java/com/github/shynixn/mccoroutine/bukkit/CoroutineTimings.kt:37-39 | run on an empty queue changes nothing; otherwise exactly the head is run and the rest stays queued in order |
| TickQueues.Runs | mccoroutine-bukkit-api/src/main/java/com/github/shynixn/mccoroutine/bukkit/CoroutineTimings.kt:23-39 | n runs execute the first n queued blocks (all of them if fewer) in insertion order and leave the rest queued |
| TickQueues.CoroutineTimings.Add | mccoroutine-bukkit-api/src/main/java/com/github/shynixn/mccoroutine/bukkit/CoroutineTimings.kt:23 | a block joins the tail of the queue |
| TickQueues.CoroutineTimings.Run | mccoroutine-bukkit-api/src/main/java/com/github/shynixn/mccoroutine/bukkit/CoroutineTimings.kt:37-39 | the new queue and run log are those of Poll |
| BukkitDispatchers.ExactlyOneNeedsDispatch | mccoroutine-bukkit-core/src/main/java/com/github/shynixn/mccoroutine/bukkit/dispatcher/AsyncCoroutineDispatcher.kt:21-27 | for an enabled plugin exactly one of the minecraft and async dispatchers needs a dispatch; for a disabled plugin neither does |
| BukkitDispatchers.AsyncDispatch | mccoroutine-bukkit-core/src/main/java/com/github/shynixn/mccoroutine/bukkit/dispatcher/AsyncCoroutineDispatcher.kt:32-34 | dispatch hands the block to the asynchronous scheduler exactly once and never runs it inline |
| BukkitDispatchers.MinecraftCoroutineDispatcher.IsDispatchNeeded | mccoroutine-bukkit-core/src/main/java/com/github/shynixn/mccoroutine/bukkit/dispatcher/MinecraftCoroutineDispatcher.kt:23-26 | a dispatch is needed exactly off the primary thread of an enabled plugin, and ensureWakeup always runs first |
| BukkitDispatchers.MinecraftCoroutineDispatcher.Dispatch | mccoroutine-bukkit-core/src/main/java/com/github/shynixn/mccoroutine/bukkit/dispatcher/MinecraftCoroutineDispatcher.kt:31-49 | a disabled plugin schedules nothing; otherwise exactly one main-thread task: the block itself without a timings element, or the timings runnable after the block joins the tail of its queue; a task-tracking element gains exactly the new task |
| BukkitDispatchers.AsyncCoroutineDispatcher.IsDispatchNeeded | mccoroutine-bukkit-core/src/main/java/com/github/shynixn/mccoroutine/bukkit/dispatcher/AsyncCoroutineDispatcher.kt:21-27 | a disabled plugin needs no dispatch and skips ensureWakeup; an enabled one needs a dispatch exactly on the primary thread, after ensureWakeup |
| LegacyDispatchers.Captured | mccoroutine-bukkit-core/src/main/java/com/github/shynixn/mccoroutine/dispatcher/MinecraftCoroutineDispatcher.kt:20-22 | the primary thread is recorded only when none is known and the call is on it; a known one never changes |
| LegacyDispatchers.MinecraftCoroutineDispatcher.Dispatch | mccoroutine-bukkit-core/src/main/java/com/github/shynixn/mccoroutine/dispatcher/MinecraftCoroutineDispatcher.kt:15-30 | a disabled plugin neither runs nor schedules; on the primary thread the block runs inline and nothing is scheduled; off it the block is scheduled once, not run, and ensureWakeup follows |
| LegacyDispatchers.AsyncCoroutineDispatcher.Dispatch | mccoroutine-bukkit-core/src/main/java/com/github/shynixn/mccoroutine/dispatcher/AsyncCoroutineDispatcher.kt:15-30 | a disabled plugin neither runs nor schedules; on the primary thread the block goes once to the asynchronous scheduler and ensureWakeup follows; off it the block runs inline |
| FoliaDispatchers.MinecraftIsDispatchNeeded | mccoroutine-folia-core/src/main/java/com/github/shynixn/mccoroutine/folia/dispatcher/MinecraftCoroutineDispatcher.kt:22-25 | ensureWakeup is always called; a dispatch is needed exactly off the primary thread of an enabled plugin |
| FoliaDispatchers.MinecraftDispatch | mccoroutine-folia-core/src/main/java/com/github/shynixn/mccoroutine/folia/dispatcher/MinecraftCoroutineDispatcher.kt:30-42 | a disabled plugin schedules nothing; otherwise exactly one main-thread task: the block, or the timings runnable after the block joins the tail of its queue |
| FoliaDispatchers.RegionIsDispatchNeeded | mccoroutine-folia-core/src/main/java/com/github/shynixn/mccoroutine/folia/dispatcher/EntityDispatcher.kt:21-24 | ensureWakeup is called and a dispatch is always needed. Also: the global region dispatcher answers the same way (mccoroutine-folia-core/…/dispatcher/GlobalRegionDispatcher.kt:18-21) |
| FoliaDispatchers.EntityDispatch | mccoroutine-folia-core/src/main/java/com/github/shynixn/mccoroutine/folia/dispatcher/EntityDispatcher.kt:29-39 | the block goes once to the entity's scheduler (as task and as retired callback); if the entity was removed it goes once to the global region scheduler instead; it never runs inline and the plugin's state is not checked |
| FoliaDispatchers.GlobalRegionDispatch | mccoroutine-folia-core/src/main/java/com/github/shynixn/mccoroutine/folia/dispatcher/GlobalRegionDispatcher.kt:26-28 | the block goes once to the global region scheduler, never inline |
| MinestomDispatchers.MinecraftCoroutineDispatcher.constructor | mccoroutine-minestom-core/src/main/java/com/github/shynixn/mccoroutine/minestom/dispatcher/MinecraftCoroutineDispatcher.kt:12 | mainThreadId starts at -1 |
| MinestomDispatchers.MinecraftCoroutineDispatcher.RecordMainThread | mccoroutine-minestom-core/src/main/java/com/github/shynixn/mccoroutine/minestom/dispatcher/MinecraftCoroutineDispatcher.kt:14-18 | the first scheduled process records the tick thread |
| MinestomDispatchers.MinecraftCoroutineDispatcher.IsDispatchNeeded | mccoroutine-minestom-core/src/main/java/com/github/shynixn/mccoroutine/minestom/dispatcher/MinecraftCoroutineDispatcher.kt:26-28 | a dispatch is needed exactly off the recorded thread, so always before it is recorded |
| MinestomDispatchers.MinecraftDispatch | mccoroutine-minestom-core/src/main/java/com/github/shynixn/mccoroutine/minestom/dispatcher/MinecraftCoroutineDispatcher.kt:33-35 | the block is scheduled once for the start of the next tick, never inline |
| MinestomDispatchers.AsyncIsDispatchNeeded | mccoroutine-minestom-core/src/main/java/com/github/shynixn/mccoroutine/minestom/dispatcher/AsyncCoroutineDispatcher.kt:18-20 | the async dispatcher always needs a dispatch, on any thread |
| MinestomDispatchers.AsyncDispatch | mccoroutine-minestom-core/src/main/java/com/github/shynixn/mccoroutine/minestom/dispatcher/AsyncCoroutineDispatcher.kt:25-27 | the block is scheduled once for the start of the next tick, never inline |
| FabricDispatchers.MinecraftCoroutineDispatcher.constructor | mccoroutine-fabric-core/src/main/java/com/github/shynixn/mccoroutine/fabric/dispatcher/MinecraftCoroutineDispatcher.kt:11 | mainThreadId starts at -1 |
| FabricDispatchers.MinecraftCoroutineDispatcher.RecordMainThread | mccoroutine-fabric-core/src/main/java/com/github/shynixn/mccoroutine/fabric/dispatcher/MinecraftCoroutineDispatcher.kt:13-17 | the first task on the server executor records the server thread |
| FabricDispatchers.MinecraftCoroutineDispatcher.IsDispatchNeeded | mccoroutine-fabric-core/src/main/java/com/github/shynixn/mccoroutine/fabric/dispatcher/MinecraftCoroutineDispatcher.kt:25-27 | a dispatch is needed exactly off the recorded thread, so always before it is recorded |
| FabricDispatchers.MinecraftDispatch | mccoroutine-fabric-core/src/main/java/com/github/shynixn/mccoroutine/fabric/dispatcher/MinecraftCoroutineDispatcher.kt:32-34 | the block is handed once to the server executor, never inline |
| SpongeDispatchers.AsyncIsDispatchNeeded | mccoroutine-sponge-core/src/main/java/com/github/shynixn/mccoroutine/sponge/dispatcher/AsyncCoroutineDispatcher.kt:18-20 | a dispatch is needed exactly on the main thread |
| SpongeDispatchers.AsyncDispatch | mccoroutine-sponge-core/src/main/java/com/github/shynixn/mccoroutine/sponge/dispatcher/AsyncCoroutineDispatcher.kt:25-34 | a disabled plugin drops the block; otherwise one async task runs it, never inline |
| BungeeCordDispatchers.IsDispatchNeeded | mccoroutine-bungeecord-core/src/main/java/com/github/shynixn/mccoroutine/dispatcher/BungeeCordCoroutineDispatcher.kt:15-17 | a dispatch is always needed |
| BungeeCordDispatchers.Dispatch | mccoroutine-bungeecord-core/src/main/java/com/github/shynixn/mccoroutine/dispatcher/BungeeCordCoroutineDispatcher.kt:22-28 | a disabled plugin drops the block; otherwise it goes once to runAsync, never inline |
| VelocityDispatchers.IsDispatchNeeded | mccoroutine-velocity-core/src/main/java/com/github/shynixn/mccoroutine/velocity/dispatcher/VelocityCoroutineDispatcher.kt:19-21 | a dispatch is always needed |
| VelocityDispatchers.Dispatch | mccoroutine-velocity-core/src/main/java/com/github/shynixn/mccoroutine/velocity/dispatcher/VelocityCoroutineDispatcher.kt:26-34 | a disabled plugin drops the block; otherwise one task is built and scheduled, never inline |
| TestDispatchers.TestPool.Submit | mccoroutine-bukkit-test/src/main/java/com/github/shynixn/mccoroutine/bukkit/test/dispatcher/TestMinecraftCoroutineDispatcher.kt:25-27 | a pool that is not shut down accepts the block at the tail; a shut-down pool rejects it and is unchanged |
| TestDispatchers.TestPool.Shutdown | mccoroutine-bukkit-test/src/main/java/com/github/shynixn/mccoroutine/bukkit/test/dispatcher/TestMinecraftCoroutineDispatcher.kt:30-32 | the pool is shut down and keeps what it accepted |
| TestDispatchers.TestMinecraftCoroutineDispatcher.constructor | mccoroutine-bukkit-test/src/main/java/com/github/shynixn/mccoroutine/bukkit/test/dispatcher/TestMinecraftCoroutineDispatcher.kt:10-11 | a fresh single-thread pool that has accepted no dispatched block (the thread-recording task `init` submits first is RecordThread) and no thread id |
| TestDispatchers.TestMinecraftCoroutineDispatcher.RecordThread | mccoroutine-bukkit-test/src/main/java/com/github/shynixn/mccoroutine/bukkit/test/dispatcher/TestMinecraftCoroutineDispatcher.kt:13-18 | the pool's first task records the pool thread as threadId |
| TestDispatchers.TestMinecraftCoroutineDispatcher.IsDispatchNeeded | mccoroutine-bukkit-test/src/main/java/com/github/shynixn/mccoroutine/bukkit/test/dispatcher/TestMinecraftCoroutineDispatcher.kt:20-22 | a dispatch is needed exactly off the recorded thread, so always while none is recorded |
| TestDispatchers.TestMinecraftCoroutineDispatcher.Dispatch | mccoroutine-bukkit-test/src/main/java/com/github/shynixn/mccoroutine/bukkit/test/dispatcher/TestMinecraftCoroutineDispatcher.kt:24-28 | the block is submitted to the pool: accepted at the tail unless the pool is shut down |
| TestDispatchers.TestMinecraftCoroutineDispatcher.Dispose | mccoroutine-bukkit-test/src/main/java/com/github/shynixn/mccoroutine/bukkit/test/dispatcher/TestMinecraftCoroutineDispatcher.kt:30-32 | the pool is shut down |
| TestDispatchers.TestAsyncCoroutineDispatcher.constructor | mccoroutine-bukkit-test/src/main/java/com/github/shynixn/mccoroutine/bukkit/test/dispatcher/TestAsyncCoroutineDispatcher.kt:8-10 | a fresh, empty pool of its own, tied to the minecraft test dispatcher |
| TestDispatchers.TestAsyncCoroutineDispatcher.IsDispatchNeeded | mccoroutine-bukkit-test/src/main/java/com/github/shynixn/mccoroutine/bukkit/test/dispatcher/TestAsyncCoroutineDispatcher.kt:12-14 | a dispatch is needed exactly on the thread the minecraft test dispatcher recorded |
| TestDispatchers.TestAsyncCoroutineDispatcher.Dispatch | mccoroutine-bukkit-test/src/main/java/com/github/shynixn/mccoroutine/bukkit/test/dispatcher/TestAsyncCoroutineDispatcher.kt:16-21 | the block is submitted to the async pool: accepted at the tail unless the pool is shut down; the pool is never shut down by a dispatch |
| TestDispatchers.TestAsyncCoroutineDispatcher.Dispose | mccoroutine-bukkit-test/src/main/java/com/github/shynixn/mccoroutine/bukkit/test/dispatcher/TestAsyncCoroutineDispatcher.kt:23-25 | the async pool is shut down |
| TestDispatchers.ExactlyOneNeedsDispatch | mccoroutine-bukkit-test/src/main/java/com/github/shynixn/mccoroutine/bukkit/test/dispatcher/TestAsyncCoroutineDispatcher.kt:12-14 | once the minecraft test thread is recorded, exactly one of the two test dispatchers needs a dispatch on any thread |
| TestDispatchers.TestMainCoroutineDispatcher.constructor | mccoroutine-folia-test/src/main/java/com/github/shynixn/mccoroutine/folia/test/dispatcher/TestMainCoroutineDispatcher.kt:10-11 | a fresh single-thread pool that has accepted no dispatched block (the thread-recording task `init` submits first is RecordThread) and no thread id |
| TestDispatchers.TestMainCoroutineDispatcher.RecordThread | mccoroutine-folia-test/src/main/java/com/github/shynixn/mccoroutine/folia/test/dispatcher/TestMainCoroutineDispatcher.kt:13-18 | the pool's first task records the pool thread as threadId |
| TestDispatchers.TestMainCoroutineDispatcher.IsDispatchNeeded | mccoroutine-folia-test/src/main/java/com/github/shynixn/mccoroutine/folia/test/dispatcher/TestMainCoroutineDispatcher.kt:20-22 | a dispatch is needed exactly off the recorded thread, so always while none is recorded |
| TestDispatchers.TestMainCoroutineDispatcher.Dispatch | mccoroutine-folia-test/src/main/java/com/github/shynixn/mccoroutine/folia/test/dispatcher/TestMainCoroutineDispatcher.kt:24-28 | the block is submitted to the pool: accepted at the tail unless the pool is shut down; the pool is never shut down by a dispatch |
| TestDispatchers.TestMainCoroutineDispatcher.Dispose | mccoroutine-folia-test/src/main/java/com/github/shynixn/mccoroutine/folia/test/dispatcher/TestMainCoroutineDispatcher.kt:30-32 | the pool is shut down |
| EventFanOut.CheckThread | mccoroutine-bukkit-core/src/main/java/com/github/shynixn/mccoroutine/bukkit/service/EventServiceImpl.kt:51-56 | Bukkit fails exactly when an async event is fired under the service's lock or on the primary thread, or a synchronous one off the primary thread; the async-under-lock failure is reported first. Also: Folia performs the same three thread checks as Bukkit (mccoroutine-folia-core/…/service/EventServiceImpl.kt:55-60); the legacy service checks nothing before walking the listeners (mccoroutine-bukkit-core/…/service/EventServiceImpl.kt:45-48) |
| EventFanOut.ListenerContext | mccoroutine-bukkit-core/src/main/java/com/github/shynixn/mccoroutine/bukkit/service/EventServiceImpl.kt:205-211 | an async event runs its listener on the async dispatcher and a synchronous one on the minecraft dispatcher. Also: on Folia a synchronous event runs on the class's context resolver when Folia is loaded and on the global region dispatcher otherwise (mccoroutine-folia-core/…/service/EventServiceImpl.kt:218-228); the legacy service runs async events Unconfined and synchronous ones on the minecraft dispatcher (mccoroutine-bukkit-core/…/service/EventServiceImpl.kt:193-199) |
| EventFanOut.ListenerStart | mccoroutine-bukkit-core/src/main/java/com/github/shynixn/mccoroutine/service/CoroutineSessionImpl.kt:72-80 | Bukkit and Folia start listeners UNDISPATCHED; the legacy session starts a coroutine undispatched exactly when its context is Unconfined |
| EventFanOut.CallSuspendingEvent | mccoroutine-bukkit-core/src/main/java/com/github/shynixn/mccoroutine/bukkit/service/EventServiceImpl.kt:240-253 | a listener coroutine is launched exactly when the event is not a cancelled one the listener ignores, the executor is suspending, the method handles the event's class and the scope of the plugin that registered the listener is open; it runs on the listener context with the platform's start mode; the branch for an executor that is not suspending, which createCoroutineListener never builds, yields a fresh job. Also: the Folia registered listener decides launch or fresh job by the same conditions (mccoroutine-folia-core/…/service/EventServiceImpl.kt:266-279); the legacy registered listener decides launch or fresh job by the same conditions, through the session captured when it was registered (mccoroutine-bukkit-core/…/service/EventServiceImpl.kt:227-240) |
| EventFanOut.VisitOf | mccoroutine-bukkit-core/src/main/java/com/github/shynixn/mccoroutine/bukkit/service/EventServiceImpl.kt:62-79 | a disabled plugin's listener is skipped, a throwing call is logged and the walk goes on, a plain listener is called, and a suspending one yields the job of its own registration's scope |
| EventFanOut.Visits | mccoroutine-bukkit-core/src/main/java/com/github/shynixn/mccoroutine/bukkit/service/EventServiceImpl.kt:61-80 | the walk visits every registration once, in handler-list order, each one as VisitOf says, whatever the scopes of the other registrations |
| EventFanOut.JobsOfSnoc | mccoroutine-bukkit-core/src/main/java/com/github/shynixn/mccoroutine/bukkit/service/EventServiceImpl.kt:68-70 | one more visit adds its job at the end exactly when it was a suspending call |
| EventFanOut.OneJobPerSuspendingListener | mccoroutine-bukkit-core/src/main/java/com/github/shynixn/mccoroutine/bukkit/service/EventServiceImpl.kt:61-80 | the Concurrent walk collects exactly one job per enabled, non-throwing suspending registration |
| EventFanOut.CancelledEventSkipsIgnoringListeners | mccoroutine-bukkit-core/src/main/java/com/github/shynixn/mccoroutine/bukkit/service/EventServiceImpl.kt:241-245 | for a cancelled cancellable event, a listener that ignores cancelled events never gets a coroutine |
| EventFanOut.UnrelatedEventYieldsInertJob | mccoroutine-bukkit-core/src/main/java/com/github/shynixn/mccoroutine/bukkit/service/EventServiceImpl.kt:201-231 | an event whose class the listener's method does not handle invokes nothing and yields a fresh job |
| EventFanOut.FireConcurrent | mccoroutine-bukkit-core/src/main/java/com/github/shynixn/mccoroutine/bukkit/service/EventServiceImpl.kt:60-80 | the loop returns the walk's visits and exactly their jobs, one per suspending listener, each launched through the scope of the plugin that registered it |
| EventFanOut.ConsecutiveStart | mccoroutine-folia-core/src/main/java/com/github/shynixn/mccoroutine/folia/service/EventServiceImpl.kt:86 | the single Consecutive coroutine starts by default only on Bukkit; Folia passes UNDISPATCHED and the legacy Unconfined launch is undispatched |
| EventFanOut.FireConsecutive | mccoroutine-bukkit-core/src/main/java/com/github/shynixn/mccoroutine/bukkit/service/EventServiceImpl.kt:81-101 | Consecutive mode returns a single Unconfined job launched through the firing plugin's scope; when that scope is open the coroutine walks all registrations as the Concurrent walk does, each call still through its registration's own scope, otherwise nothing is walked |
| EventFanOut.ModesVisitAlike | mccoroutine-bukkit-core/src/main/java/com/github/shynixn/mccoroutine/service/EventServiceImpl.kt:49-90 | the single Consecutive coroutine makes as many suspending listener calls, one after another, as Concurrent mode launches jobs: one per enabled, non-throwing suspending registration |
| EventFanOut.FireSuspendingEvent | mccoroutine-bukkit-core/src/main/java/com/github/shynixn/mccoroutine/bukkit/service/EventServiceImpl.kt:47-104 | a failed thread check throws; otherwise Concurrent returns one job per suspending listener, each through its registering plugin's scope, and Consecutive a single job, through the firing plugin's scope, that walks them all. Also: the Folia service fires events the same way, with the Folia contexts (mccoroutine-folia-core/…/service/EventServiceImpl.kt:51-109); the legacy service fires events the same way without thread checks (mccoroutine-bukkit-core/…/service/EventServiceImpl.kt:45-93) |
| EventFanOut.CreateCoroutineListener | mccoroutine-folia-core/src/main/java/com/github/shynixn/mccoroutine/folia/service/EventServiceImpl.kt:115-197 | handler methods are grouped by event class: each group holds only handlers of that class, every handler appears in its class's group, and each at most once, in scan order; registration fails exactly when some handler's event class has no dispatcher mapping, naming the class of the first such handler in scan order |
| EventFanOut.Invoke | mccoroutine-folia-core/src/main/java/com/github/shynixn/mccoroutine/folia/service/EventServiceImpl.kt:233-247 | while the memo is unknown an invocation probes the method, calling it as a suspend function exactly when that works, and records that answer only when the call returns normally; a known memo is reused unchanged |
| EventFanOut.DecidedOnFirstCall | mccoroutine-folia-core/src/main/java/com/github/shynixn/mccoroutine/folia/service/EventServiceImpl.kt:233-247 | once decided, the memo never changes and every later invocation calls the method the same way |
| EventFanOut.MemoFromFirstCompleted | mccoroutine-folia-core/src/main/java/com/github/shynixn/mccoroutine/folia/service/EventServiceImpl.kt:233-247 | from an unknown memo, the first invocation that returns normally decides it; that invocation and every earlier one probe the method afresh and every later one calls it the way that invocation did |
| EventFanOut.NoCompletionKeepsProbing | mccoroutine-folia-core/src/main/java/com/github/shynixn/mccoroutine/folia/service/EventServiceImpl.kt:233-247 | while no invocation returns normally the memo stays unknown and every invocation probes the method afresh |
| EventFanOut.SuspendingEventExecutor.constructor | mccoroutine-folia-core/src/main/java/com/github/shynixn/mccoroutine/folia/service/EventServiceImpl.kt:206 | a new executor has not yet decided how to call its method |
| EventFanOut.SuspendingEventExecutor.InvokeListener | mccoroutine-folia-core/src/main/java/com/github/shynixn/mccoroutine/folia/service/EventServiceImpl.kt:232-248 | an invocation updates the executor's memo and calls the method as Invoke says |
| BungeeEvents.FindHandlers | mccoroutine-bungeecord-core/src/main/java/com/github/shynixn/mccoroutine/service/BungeeCordEventServiceImpl.kt:78-112 | every annotated method with one or two parameters is listed once under its event class and priority and nothing else is listed; exactly the other annotated methods are logged and skipped |
| BungeeEvents.MergePriorities | mccoroutine-bungeecord-core/src/main/java/com/github/shynixn/mccoroutine/service/BungeeCordEventServiceImpl.kt:57-64 | a class's table gains every priority the listener has handlers at and loses none |
| BungeeEvents.MergeListener | mccoroutine-bungeecord-core/src/main/java/com/github/shynixn/mccoroutine/service/BungeeCordEventServiceImpl.kt:51-66 | the bus gains every class the listener handles and loses none |
| BungeeEvents.MergeKeepsTableOk | mccoroutine-bungeecord-core/src/main/java/com/github/shynixn/mccoroutine/service/BungeeCordEventServiceImpl.kt:57-64 | merging repetition-free method lists keeps every list of the table free of repetitions |
| BungeeEvents.RegisterKeepsOtherEntries | mccoroutine-bungeecord-core/src/main/java/com/github/shynixn/mccoroutine/service/BungeeCordEventServiceImpl.kt:51-66 | registering a listener leaves every other listener's methods, and its own where it has no handlers, as they were |
| BungeeEvents.RegisterWritesFoundHandlers | mccoroutine-bungeecord-core/src/main/java/com/github/shynixn/mccoroutine/service/BungeeCordEventServiceImpl.kt:63 | after registering, the listener's methods at each class and priority it handles are exactly the ones found |
| BungeeEvents.AppendListener | mccoroutine-bungeecord-core/src/main/java/com/github/shynixn/mccoroutine/service/BungeeCordEventServiceImpl.kt:131-135 | one listener's methods at one priority are appended as entries, keeping the list ascending and repetition-free |
| BungeeEvents.AppendPriority | mccoroutine-bungeecord-core/src/main/java/com/github/shynixn/mccoroutine/service/BungeeCordEventServiceImpl.kt:128-137 | after one priority the list holds exactly the table's entries up to that priority, ascending and repetition-free |
| BungeeEvents.Bake | mccoroutine-bungeecord-core/src/main/java/com/github/shynixn/mccoroutine/service/BungeeCordEventServiceImpl.kt:125-139 | the baked array holds every entry of the table exactly once, in ascending priority from -128 to 127 |
| BungeeEvents.EventBus.constructor | mccoroutine-bungeecord-core/src/main/java/com/github/shynixn/mccoroutine/service/BungeeCordEventServiceImpl.kt:38-45 | an empty bus: no tables, no baked arrays, no listeners by plugin |
| BungeeEvents.EventBus.BakeHandlers | mccoroutine-bungeecord-core/src/main/java/com/github/shynixn/mccoroutine/service/BungeeCordEventServiceImpl.kt:117-143 | a class with a table gets a correct baking of it; a class without one loses its baked array; other classes keep theirs |
| BungeeEvents.EventBus.MergeInto | mccoroutine-bungeecord-core/src/main/java/com/github/shynixn/mccoroutine/service/BungeeCordEventServiceImpl.kt:52-64 | one class's table after the listener's handlers replace its entries, priority by priority |
| BungeeEvents.EventBus.RegisterClass | mccoroutine-bungeecord-core/src/main/java/com/github/shynixn/mccoroutine/service/BungeeCordEventServiceImpl.kt:52-65 | one class takes in the listener's handlers and is re-baked correctly; no other class changes |
| BungeeEvents.EventBus.RegisterClasses | mccoroutine-bungeecord-core/src/main/java/com/github/shynixn/mccoroutine/service/BungeeCordEventServiceImpl.kt:49-69 | every class the listener handles is merged and re-baked; other classes keep their baked arrays |
| BungeeEvents.EventBus.RegisterSuspendListener | mccoroutine-bungeecord-core/src/main/java/com/github/shynixn/mccoroutine/service/BungeeCordEventServiceImpl.kt:24-73 | the handlers merged into the bus are exactly the annotated one- or two-parameter methods of the listener, each once under its event class and priority; each touched class is re-baked correctly, nothing else changes, and the listener is recorded under its plugin |
| Protocol.MessageReceived | mccoroutine-bukkit-core/src/main/java/com/github/shynixn/mccoroutine/service/ProtocolServiceImpl.kt:128-147 | a packet is never cancelled; an event task for this player and packet is posted exactly when some player is cached and the packet's class is registered |
| Protocol.ProtocolService.constructor | mccoroutine-bukkit-core/src/main/java/com/github/shynixn/mccoroutine/service/ProtocolServiceImpl.kt:40-41 | no cached channels and no registered packet classes |
| Protocol.ProtocolService.RegisterPackets | mccoroutine-bukkit-core/src/main/java/com/github/shynixn/mccoroutine/service/ProtocolServiceImpl.kt:46-48 | the registered set becomes the old set plus every given class |
| Protocol.ProtocolService.Register | mccoroutine-bukkit-core/src/main/java/com/github/shynixn/mccoroutine/service/ProtocolServiceImpl.kt:53-72 | a cached player is left alone; otherwise the interceptor is added to the player's channel and that channel is cached |
| Protocol.ProtocolService.UnRegister | mccoroutine-bukkit-core/src/main/java/com/github/shynixn/mccoroutine/service/ProtocolServiceImpl.kt:77-91 | an uncached player is left alone; otherwise the removal of its interceptor is posted to its own channel and only its entry goes |
| Protocol.ProtocolService.Dispose | mccoroutine-bukkit-core/src/main/java/com/github/shynixn/mccoroutine/service/ProtocolServiceImpl.kt:117-123 | every cached player is unregistered exactly once, each cached channel gets one removal task, no channel stays cached and the packet set is cleared |
| Protocol.ProtocolService.OnMessageReceive | mccoroutine-bukkit-core/src/main/java/com/github/shynixn/mccoroutine/service/ProtocolServiceImpl.kt:128-147 | the service posts the event task MessageReceived names and never cancels |
| Protocol.ProtocolService.Intercept | mccoroutine-bukkit-core/src/main/java/com/github/shynixn/mccoroutine/service/ProtocolServiceImpl.kt:157-184 | the packet is always passed on; a serialisation failure, reachable only past both guards, is logged at SEVERE and posts nothing |
| PluginListeners.OnPluginDisable | mccoroutine-bukkit-core/src/main/java/com/github/shynixn/mccoroutine/bukkit/listener/PluginListener.kt:15-25 | another plugin's event changes nothing; for the own plugin the session is looked up (created if missing and the plugin may start one, a failure if not) and, only under strategy SCHEDULER, disposed and removed, so under MANUAL a session the lookup created stays registered; other plugins keep their sessions. Also: the Folia listener reacts to the disable event the same way (mccoroutine-folia-core/…/listener/PluginListener.kt:23-33) |
| PluginListeners.LegacyOnPluginDisable | mccoroutine-bukkit-core/src/main/java/com/github/shynixn/mccoroutine/listener/PluginListener.kt:16-22 | another plugin's event changes nothing; the own plugin's session, if any, is always disposed and removed, without a lookup |
| PluginListeners.DisableEventIsIdempotent | mccoroutine-bukkit-core/src/main/java/com/github/shynixn/mccoroutine/listener/PluginListener.kt:16-22 | a second disable event for the same plugin finds nothing left to dispose |
| PluginListeners.SchedulerStrategyMatchesLegacy | mccoroutine-bukkit-core/src/main/java/com/github/shynixn/mccoroutine/bukkit/listener/PluginListener.kt:20-24 | for a plugin with a session, strategy SCHEDULER behaves exactly as the legacy listener |
| PluginListeners.LegacyPlayerListener.constructor | mccoroutine-bukkit-core/src/main/java/com/github/shynixn/mccoroutine/listener/PluginListener.kt:11 | the listener works on the protocol service of the plugin's session |
| PluginListeners.LegacyPlayerListener.OnPlayerJoin | mccoroutine-bukkit-core/src/main/java/com/github/shynixn/mccoroutine/listener/PluginListener.kt:27-30 | the joining player ends up cached with its channel and, if it was not cached before, exactly one interceptor is added to that channel; an already cached player changes nothing |
| PluginListeners.LegacyPlayerListener.OnPlayerQuit | mccoroutine-bukkit-core/src/main/java/com/github/shynixn/mccoroutine/listener/PluginListener.kt:35-38 | only the leaving player's cached channel goes, and that channel, if there was one, receives the interceptor removal; an uncached player changes nothing |
| ApiHelpers.Launch | mccoroutine-bukkit-api/src/main/java/com/github/shynixn/mccoroutine/bukkit/MCCoroutine.kt:60-69 | a plugin whose scope is no longer active gets a fresh job and nothing starts; otherwise the block joins the scope's coroutines as the last one and its job is returned. Also: Folia's launch applies the same inactive-scope guard (mccoroutine-folia-api/…/folia/MCCoroutine.kt:113-122); BungeeCord's launch applies the same inactive-scope guard (mccoroutine-bungeecord-api/…/bungeecord/MCCoroutine.kt:64-73); Minestom's Extension.launch applies the same inactive-scope guard (mccoroutine-minestom-api/…/minestom/MCCoroutine.kt:121-131); Minestom's MinecraftServer.launch applies the same inactive-scope guard (mccoroutine-minestom-api/…/minestom/MCCoroutine.kt:158-167); Fabric's DedicatedServerModInitializer.launch applies the same inactive-scope guard (mccoroutine-fabric-api/…/fabric/MCCoroutine.kt:124-133); Fabric's ClientModInitializer.launch applies the same inactive-scope guard (mccoroutine-fabric-api/…/fabric/MCCoroutine.kt:161-170); Fabric's ModInitializer.launch applies the same inactive-scope guard (mccoroutine-fabric-api/…/fabric/MCCoroutine.kt:198-207); Sponge's launch applies the same inactive-scope guard (mccoroutine-sponge-api/…/sponge/MCCoroutine.kt:75-84); Velocity's launch applies the same inactive-scope guard (mccoroutine-velocity-api/…/velocity/MCCoroutine.kt:70-79) |
| ApiHelpers.LaunchesOnInactiveScopeStartNothing | mccoroutine-bukkit-api/src/main/java/com/github/shynixn/mccoroutine/bukkit/MCCoroutine.kt:65-67 | any run of launches on an inactive scope leaves the scope's coroutines as they were and returns only fresh jobs |
| ApiHelpers.Ticks | mccoroutine-fabric-api/src/main/java/com/github/shynixn/mccoroutine/fabric/MCCoroutine.kt:272-275 | n ticks become 50n-25 ms: strictly between the (n-1)-th and n-th 50 ms boundaries, half a tick before the n-th, and always within Long range. Also: Folia's ticks conversion is the same (mccoroutine-folia-api/…/folia/MCCoroutine.kt:249-252); Minestom's ticks conversion is the same (mccoroutine-minestom-api/…/minestom/MCCoroutine.kt:178-181); Sponge's ticks conversion is the same (mccoroutine-sponge-api/…/sponge/MCCoroutine.kt:165-168) |
| ApiHelpers.TicksStep | mccoroutine-fabric-api/src/main/java/com/github/shynixn/mccoroutine/fabric/MCCoroutine.kt:272-275 | each further tick adds exactly 50 ms, and one tick is 25 ms |
| ApiHelpers.ChunkCoordinate | mccoroutine-folia-api/src/main/java/com/github/shynixn/mccoroutine/folia/MCCoroutine.kt:67-70 | the chunk coordinate c of a block satisfies 16c <= block < 16c+16, rounding toward negative infinity as shr 4 does |
| ApiHelpers.SameChunk | mccoroutine-folia-api/src/main/java/com/github/shynixn/mccoroutine/folia/MCCoroutine.kt:67-70 | two blocks get the same chunk coordinate exactly when they lie in one 16-block column that starts at a multiple of 16 |
| ApiHelpers.ChunkUnique | mccoroutine-folia-api/src/main/java/com/github/shynixn/mccoroutine/folia/MCCoroutine.kt:69 | the only chunk coordinate whose 16-block column holds a block is the one shr 4 gives |
| ApiHelpers.RegionDispatcherAt | mccoroutine-folia-api/src/main/java/com/github/shynixn/mccoroutine/folia/MCCoroutine.kt:67-70 | with Folia loaded, the region dispatcher of the block's own world and chunk; otherwise the Bukkit minecraft dispatcher |
| ApiHelpers.CallSuspendingEventDefault | mccoroutine-bukkit-api/src/main/java/com/github/shynixn/mccoroutine/bukkit/MCCoroutine.kt:103-105 | without an execution type an event is fired Concurrent: a failed thread check throws, otherwise one job per enabled, non-throwing suspending listener. Also: Folia's default is Concurrent as well (mccoroutine-folia-api/…/folia/MCCoroutine.kt:162-164) |
| ApiHelpers.ExecutesSuspend | mccoroutine-fabric-api/src/main/java/com/github/shynixn/mccoroutine/fabric/MCCoroutine.kt:213-226 | the command's own result is returned only when its coroutine was admitted and ran to its end without suspending; otherwise SINGLE_SUCCESS. Also: the client overload returns the same (mccoroutine-fabric-api/…/fabric/MCCoroutine.kt:231-244); the mod overload returns the same (mccoroutine-fabric-api/…/fabric/MCCoroutine.kt:249-262) |
| ApiHelpers.AnyCancels | mccoroutine-fabric-api/src/main/java/com/github/shynixn/mccoroutine/fabric/MCCoroutineExceptionEvent.kt:21-31 | true exactly when some listener answered true |
| ApiHelpers.OnMCCoroutineException | mccoroutine-fabric-api/src/main/java/com/github/shynixn/mccoroutine/fabric/MCCoroutineExceptionEvent.kt:20-32 | every listener is called once, in order, with the same throwable and entry point, and the event is cancelled exactly when some listener said so |
| ApiHelpers.AsyncSuspendAll | mccoroutine-minestom-api/src/main/java/com/github/shynixn/mccoroutine/minestom/MCCoroutine.kt:207-216 | every element acquireSync hands out is collected, in order, and f is applied once to exactly that list |
| ApiHelpers.AsyncSuspendOne | mccoroutine-minestom-api/src/main/java/com/github/shynixn/mccoroutine/minestom/MCCoroutine.kt:190-199 | the call succeeds exactly when sync hands out an element and f returns a non-null value for it, and then returns that value; otherwise the non-null assertion on the result throws |
| Samples.GetOrInsert | mccoroutine-bukkit-sample/src/main/java/com/github/shynixn/mccoroutine/bukkit/sample/impl/UserDataCache.kt:39-50 | the player ends up cached with the returned deferred; a cached player keeps its deferred and nothing is fetched; an uncached one gets a new deferred for itself and a fetch starts; every other player's entry is unchanged |
| Samples.RepeatedRequestReturnsSameDeferred | mccoroutine-bukkit-sample/src/main/java/com/github/shynixn/mccoroutine/bukkit/sample/impl/UserDataCache.kt:41-48 | a second request for the same player returns the first request's deferred and starts no fetch |
| Samples.GetOrInsertKeepsCoherent | mccoroutine-bukkit-sample/src/main/java/com/github/shynixn/mccoroutine/bukkit/sample/impl/UserDataCache.kt:41-46 | every cached deferred keeps fetching its own player's data |
| Samples.ClearThenRequestRefetches | mccoroutine-bukkit-sample/src/main/java/com/github/shynixn/mccoroutine/bukkit/sample/impl/UserDataCache.kt:22-24 | after clearCache the next request starts a new fetch whose deferred is none of those cached before |
| Samples.UserDataCache.constructor | mccoroutine-bukkit-sample/src/main/java/com/github/shynixn/mccoroutine/bukkit/sample/impl/UserDataCache.kt:16-17 | an empty cache over the given database |
| Samples.UserDataCache.ClearCache | mccoroutine-bukkit-sample/src/main/java/com/github/shynixn/mccoroutine/bukkit/sample/impl/UserDataCache.kt:22-24 | only this player's entry is removed; an uncached player is a no-op. Also: the legacy Bukkit sample clears the same way (mccoroutine-bukkit-sample/…/impl/UserDataCache.kt:16-18); the BungeeCord sample clears the same way (mccoroutine-bungeecord-sample/…/impl/UserDataCache.kt:19-21); the Fabric sample clears the same way (mccoroutine-fabric-sample/…/impl/UserDataCache.kt:17-19); the Minestom sample clears the same way (mccoroutine-minestom-sample/…/impl/UserDataCache.kt:17-19) |
| Samples.UserDataCache.SaveUserData | mccoroutine-bukkit-sample/src/main/java/com/github/shynixn/mccoroutine/bukkit/sample/impl/UserDataCache.kt:29-34 | a cached player's data is saved, appended after what was saved before; an uncached player makes the !! throw and nothing is saved. Also: the legacy Bukkit sample saves the same way (mccoroutine-bukkit-sample/…/impl/UserDataCache.kt:23-28); the BungeeCord sample saves the same way (mccoroutine-bungeecord-sample/…/impl/UserDataCache.kt:26-34); the Fabric sample saves the same way (mccoroutine-fabric-sample/…/impl/UserDataCache.kt:24-29); the Minestom sample saves the same way (mccoroutine-minestom-sample/…/impl/UserDataCache.kt:24-29) |
| Samples.UserDataCache.GetUserDataFromPlayerAsync | mccoroutine-bukkit-sample/src/main/java/com/github/shynixn/mccoroutine/bukkit/sample/impl/UserDataCache.kt:39-50 | the cache performs GetOrInsert: the player's own deferred, with a fetch logged exactly when the player was not cached. Also: the BungeeCord sample gets or inserts the same way (mccoroutine-bungeecord-sample/…/impl/UserDataCache.kt:39-52); the Fabric sample gets or inserts the same way (mccoroutine-fabric-sample/…/impl/UserDataCache.kt:34-46); the Minestom sample gets or inserts the same way (mccoroutine-minestom-sample/…/impl/UserDataCache.kt:34-46) |
| Samples.UserDataCache.GetUserDataFromPlayer | mccoroutine-bukkit-sample/src/main/java/com/github/shynixn/mccoroutine/bukkit/sample/impl/UserDataCache.kt:62-66 | the awaited data is the database's data for exactly this player, fetched only if the player was not cached. Also: the legacy Bukkit sample's suspending lookup returns the same (mccoroutine-bukkit-sample/…/impl/UserDataCache.kt:33-44); the BungeeCord future returns the same (mccoroutine-bungeecord-sample/…/impl/UserDataCache.kt:64-68); the Fabric future returns the same (mccoroutine-fabric-sample/…/impl/UserDataCache.kt:58-62); the Minestom future returns the same (mccoroutine-minestom-sample/…/impl/UserDataCache.kt:58-62) |
| Samples.FindSupportedPacketType | mccoroutine-bukkit-sample/src/main/java/com/github/shynixn/mccoroutine/sample/packet/MySupportedPacketType.kt:12-26 | a found type has exactly the given simple name, and nothing is found exactly when no type has that name |
| Samples.FindBySimpleName | mccoroutine-bukkit-sample/src/main/java/com/github/shynixn/mccoroutine/sample/packet/MySupportedPacketType.kt:14-15 | every packet type is found by its own simple name |

## Left out

- Real threads, executors, `scheduleAtFixedRate` and the kotlinx.coroutines scope, Job and SupervisorJob machinery are not modelled. Thread identity, "plugin enabled" and "scope active" are inputs. A started coroutine is an entry in its scope's list, and its body is never run.
- Reflection into server internals is not modelled: `createCoroutineListener`'s method scan, the `SimplePluginManager` and EventBus field lookups, `Method.invokeSuspend`, the CraftScheduler heartbeat calls and the NMS/Netty channel lookup. Each of these enters the model as an input: the scanned methods, the player's channel, whether the suspend call works.
- The Bukkit and legacy `registerSuspendListener` are not modelled beyond `createCoroutineListener`'s result. They only hand that result to the handler lists through reflection.
- The Sponge and Velocity event services, and Sponge's `postSuspending` default: almost entirely reflection into Sponge and Velocity internals.
- The deprecation-warning walk in `createCoroutineListener` is not modelled. It only logs.
- `SuspendingEventHandlerMethod.invoke` on BungeeCord is not modelled. It launches the handler on the session's unconfined dispatcher, which is the session launch that `Sessions` models.
- Folia's wake-up service is not part of this model. Its dispatchers record each call to it as a flag.
- The session classes that only wire a kotlinx scope (Sponge, Minestom, Velocity, BungeeCord-platform and Fabric `CoroutineSessionImpl`, and the test session classes) are not modelled. Neither are the command services, `SuspendingCommandElement`, `SuspendingPlugin`/`SuspendingJavaPlugin`, the `Extension.kt` files, the configuration classes and the exception- and packet-event classes: all of them are thin wrappers or flag holders.
- Log messages and `println` output are not modelled. A SEVERE log appears only as a flag where it marks a failure path.
- The check-then-insert races of the `UserDataCache` samples, including the BungeeCord sample's ConcurrentHashMap, are not modelled; the cache is modelled sequentially. The database fetch is a function from player to data, and `withContext` hops are not modelled.
- The order of a HashMap's iteration is left open wherever the source iterates one. The model enumerates the keys in some unspecified order, and every result is proved for every order.
- The entity sources under the legacy Bukkit core are not modelled. They are inconsistent legacy code.
- The floating-point `Location.add` of the samples is not modelled.
- ApiHelpers.ExecutesSuspend: whether the launched command suspends before `launch` returns is an input (`commandSuspends`). It stands for the dispatcher timing that decides whether `success` is written in time.
- ApiHelpers.AsyncSuspendAll: the order in which `acquireSync` hands out elements is an input. Minestom's acquisition threading is not modelled.
- ApiHelpers.CallSuspendingEventDefault: the per-listener coroutine bodies are not run, so the returned jobs are the jobs as launched, not as completed.
- EventFanOut.FireConsecutive: the `join` on each listener's job inside the single Consecutive coroutine is not modelled. The coroutine's walk is stated as the same visits the Concurrent walk makes.
- Protocol.ProtocolService.Intercept: a failure while serialising a packet is an input. The packet bytes and the `PlayerPacketEvent` contents are not modelled.
- PluginListeners.LegacyPlayerListener.OnPlayerJoin: the listener is bound to one protocol service when it is built. The legacy listener instead calls `getCoroutineSession(plugin)` on every join event to reach the protocol service. That lookup can create a session, or throw for a disabled plugin, and the model covers neither.
- PluginListeners.LegacyPlayerListener.OnPlayerQuit: the same holds for the quit event. The per-event `getCoroutineSession(plugin)` lookup, with its possible session creation or failure, is not modelled.
- Samples.UserDataCache.GetUserDataFromPlayer: the `future` wrappers are modelled by their awaited value. The `CompletionStage` itself is not modelled.

## Findings

| source | as written | input that shows it | evidently intended | confidence | as-written member | corrected member |
|---|---|---|---|---|---|---|
| mccoroutine-velocity-core/src/main/java/com/github/shynixn/mccoroutine/velocity/impl/MCCoroutineImpl.kt:28 | the early return of `setupCoroutineSession` tests `items.contains(plugin)`; on a ConcurrentHashMap that looks among the values, which are sessions, so it never fires for a plugin key | a second `setupCoroutineSession` for a plugin that is already set up and still enabled: the live session is replaced by a new one without being disposed | `items.containsKey(plugin)`, so that a plugin already set up keeps its session | not executed | Registries.SetupAsWritten, Registries.SetupAsWrittenReplacesSession | Registries.Setup, Registries.SetupTwiceKeepsSession |
