/**
 * Coroutine sessions: the per-plugin object that owns a plugin's coroutine
 * scope, its dispatchers and its wake-up service. What is modelled is the
 * sequential policy around the scope: whether `launch` starts a coroutine
 * and with which start mode, how a failing coroutine is reported, which
 * dispatcher a Folia session hands out, and what `dispose` shuts down.
 *
 * A session's scope is modelled by a flag (disposed, or no longer active)
 * and by the list of coroutines it has started; a launch that starts nothing
 * returns an inert job (`Job()`), a launch that starts a coroutine returns
 * its position in that list.
 */
module Sessions {
  import opened Runtime
  import opened WakeUp
  import opened TickQueues

  /** The coroutine context passed to `launch`. */
  datatype Context =
    | Unconfined                    // Dispatchers.Unconfined
    | MinecraftContext              // the plugin's minecraft dispatcher
    | AsyncContext                  // the plugin's async dispatcher
    | BungeeCordContext             // dispatcherBungeeCord of a BungeeCord session
    | UnconfinedBungeeCordContext   // unconfinedDispatcherBungeeCord of a BungeeCord session

  /** `CoroutineStart`. */
  datatype Start = Default | Undispatched | Lazy | Atomic

  /** A coroutine started in a session's scope. */
  datatype Coroutine = Coroutine(context: Context, start: Start)

  /** What `launch` returns: a fresh job with nothing attached, or the i-th coroutine of the scope. */
  datatype Job = Inert | Running(index: nat)

  /** How a launched block fails. */
  datatype Failure =
    | Cancellation     // a CancellationException
    | OtherException   // any other Exception
    | OtherThrowable   // a Throwable that is not an Exception (an Error)

  datatype Level = Info | Severe | Debug | Error

  /** What becomes of a failure: a line in the plugin's log, or an exception that leaves the coroutine. */
  datatype Handling = Logged(level: Level) | Escapes

  /** One `launch` on a scope that is `closed` (disposed, or no longer active) or open. */
  function Admit(closed: bool, started: seq<Coroutine>, c: Coroutine): (r: (seq<Coroutine>, Job))
    ensures closed ==> r == (started, Inert)
    ensures !closed ==> r.0 == started + [c] && r.1 == Running(|started|) && r.0[r.1.index] == c
  {
    if closed then (started, Inert) else (started + [c], Running(|started|))
  }

  /** Several launches on a scope whose state does not change in between. */
  function AdmitAll(closed: bool, started: seq<Coroutine>, cs: seq<Coroutine>): (r: (seq<Coroutine>, seq<Job>))
    ensures |r.1| == |cs|
    decreases |cs|
  {
    if cs == [] then (started, [])
    else
      var (s1, job) := Admit(closed, started, cs[0]);
      var (s2, jobs) := AdmitAll(closed, s1, cs[1..]);
      (s2, [job] + jobs)
  }

  /** Once a session is disposed, no launch starts anything: every job is inert. */
  lemma {:induction false} ClosedScopeStartsNothing(started: seq<Coroutine>, cs: seq<Coroutine>)
    ensures AdmitAll(true, started, cs).0 == started
    ensures forall i | 0 <= i < |cs| :: AdmitAll(true, started, cs).1[i] == Inert
    decreases |cs|
  {
    if cs != [] {
      ClosedScopeStartsNothing(started, cs[1..]);
    }
  }

  /** On an open scope every launch starts its coroutine, in call order, and gets the next position. */
  lemma {:induction false} OpenScopeStartsInOrder(started: seq<Coroutine>, cs: seq<Coroutine>)
    ensures AdmitAll(false, started, cs).0 == started + cs
    ensures forall i | 0 <= i < |cs| :: AdmitAll(false, started, cs).1[i] == Running(|started| + i)
    decreases |cs|
  {
    if cs != [] {
      OpenScopeStartsInOrder(started + [cs[0]], cs[1..]);
      assert started + [cs[0]] + cs[1..] == started + cs;
    }
  }

  /** Start mode of the Bukkit (package `service`) and Sponge sessions: only Unconfined starts undispatched. */
  function UnconfinedStart(context: Context): (s: Start)
    ensures s == Undispatched <==> context == Unconfined
    ensures s == Default <==> context != Unconfined
  {
    if context == Unconfined then Undispatched else Default
  }

  /** Start mode of the BungeeCord session: Unconfined and the session's own unconfined dispatcher start undispatched. */
  function BungeeCordStart(context: Context): (s: Start)
    ensures s == Undispatched <==> context == Unconfined || context == UnconfinedBungeeCordContext
    ensures s == Default <==> !(context == Unconfined || context == UnconfinedBungeeCordContext)
  {
    if context == Unconfined || context == UnconfinedBungeeCordContext then Undispatched else Default
  }

  /**
   * `dispatcherBungeeCord` and `unconfinedDispatcherBungeeCord` are two
   * instances of the same dispatcher class; only the second starts
   * undispatched, and both agree with the Bukkit rule elsewhere.
   */
  lemma BungeeCordStartDiffersOnlyOnOwnUnconfined(context: Context)
    ensures BungeeCordStart(BungeeCordContext) == Default && BungeeCordStart(UnconfinedBungeeCordContext) == Undispatched
    ensures context != UnconfinedBungeeCordContext ==> BungeeCordStart(context) == UnconfinedStart(context)
  {
  }

  /** launchInternal of the Bukkit (package `service`) and BungeeCord sessions: only Exceptions are caught. */
  function LegacyHandling(f: Failure): (h: Handling)
    ensures h == Logged(Info) <==> f == Cancellation
    ensures h == Logged(Severe) <==> f == OtherException
    ensures h == Escapes <==> f == OtherThrowable
  {
    match f
    case Cancellation => Logged(Info)
    case OtherException => Logged(Severe)
    case OtherThrowable => Escapes
  }

  /** launchInternal of the Sponge session: the same catches, logged at debug and error. */
  function SpongeHandling(f: Failure): (h: Handling)
    ensures h == Logged(Debug) <==> f == Cancellation
    ensures h == Logged(Error) <==> f == OtherException
    ensures h == Escapes <==> f == OtherThrowable
  {
    match f
    case Cancellation => Logged(Debug)
    case OtherException => Logged(Error)
    case OtherThrowable => Escapes
  }

  /** The root exception handler of the scoped Bukkit session (package `impl`): every throwable is logged. */
  function RootHandling(f: Failure): (h: Handling)
    ensures h.Logged?
    ensures h.level == Info <==> f == Cancellation
    ensures h.level == Severe <==> f != Cancellation
  {
    if f == Cancellation then Logged(Info) else Logged(Severe)
  }

  /** The Sponge and legacy policies log the same failures; only the level names differ. */
  lemma SpongeLogsWhatLegacyLogs(f: Failure)
    ensures SpongeHandling(f).Logged? <==> LegacyHandling(f).Logged?
    ensures RootHandling(f) == LegacyHandling(f) <==> f != OtherThrowable
  {
  }

  /** The Bukkit session of package `service`. */
  class LegacyBukkitSession {
    var disposed: bool
    var started: seq<Coroutine>
    var childrenCancelled: bool
    const wakeUp: LegacyWakeUpBlockService

    constructor (wakeUp: LegacyWakeUpBlockService)
      ensures !disposed && started == [] && !childrenCancelled && this.wakeUp == wakeUp
    {
      disposed := false;
      started := [];
      childrenCancelled := false;
      this.wakeUp := wakeUp;
    }

    /** launch: a disposed session returns a fresh job; otherwise Unconfined starts undispatched, anything else by default. */
    method Launch(context: Context) returns (job: Job)
      modifies this`started
      ensures (started, job) == Admit(disposed, old(started), Coroutine(context, UnconfinedStart(context)))
    {
      if disposed {
        return Inert;
      }
      if context == Unconfined {
        job := LaunchInternal(context, Undispatched);
        return;
      }
      job := LaunchInternal(context, Default);
    }

    method LaunchInternal(context: Context, start: Start) returns (job: Job)
      modifies this`started
      ensures started == old(started) + [Coroutine(context, start)] && job == Running(|old(started)|)
    {
      job := Running(|started|);
      started := started + [Coroutine(context, start)];
    }

    /** dispose: the flag is set for good, the scope's children are cancelled and the wake-up service disposed. */
    method Dispose()
      requires Valid(wakeUp.Snapshot())
      modifies this`disposed, this`childrenCancelled, wakeUp
      ensures disposed && childrenCancelled && started == old(started)
      ensures wakeUp.Snapshot() == AfterDispose(old(wakeUp.Snapshot()))
    {
      disposed := true;
      childrenCancelled := true;
      wakeUp.Dispose();
    }
  }

  /** The Sponge session. */
  class SpongeSession {
    var disposed: bool
    var started: seq<Coroutine>
    var childrenCancelled: bool

    constructor ()
      ensures !disposed && started == [] && !childrenCancelled
    {
      disposed := false;
      started := [];
      childrenCancelled := false;
    }

    method Launch(context: Context) returns (job: Job)
      modifies this`started
      ensures (started, job) == Admit(disposed, old(started), Coroutine(context, UnconfinedStart(context)))
    {
      if disposed {
        return Inert;
      }
      var start := if context == Unconfined then Undispatched else Default;
      job := Running(|started|);
      started := started + [Coroutine(context, start)];
    }

    method Dispose()
      modifies this
      ensures disposed && childrenCancelled && started == old(started)
    {
      disposed := true;
      childrenCancelled := true;
    }
  }

  /** The BungeeCord session. */
  class BungeeCordSession {
    var disposed: bool
    var started: seq<Coroutine>
    var childrenCancelled: bool

    constructor ()
      ensures !disposed && started == [] && !childrenCancelled
    {
      disposed := false;
      started := [];
      childrenCancelled := false;
    }

    method Launch(context: Context) returns (job: Job)
      modifies this`started
      ensures (started, job) == Admit(disposed, old(started), Coroutine(context, BungeeCordStart(context)))
    {
      if disposed {
        return Inert;
      }
      var start := if context == Unconfined || context == UnconfinedBungeeCordContext then Undispatched else Default;
      job := Running(|started|);
      started := started + [Coroutine(context, start)];
    }

    method Dispose()
      modifies this
      ensures disposed && childrenCancelled && started == old(started)
    {
      disposed := true;
      childrenCancelled := true;
    }
  }

  /** The scoped Bukkit session of package `impl`: its scope has a supervisor job and a root exception handler. */
  class ScopedBukkitSession {
    var active: bool
    var started: seq<Coroutine>
    const wakeUp: LegacyWakeUpBlockService

    constructor (wakeUp: LegacyWakeUpBlockService)
      ensures active && started == [] && this.wakeUp == wakeUp
    {
      active := true;
      started := [];
      this.wakeUp := wakeUp;
    }

    /** launch: an inactive scope returns a fresh job; otherwise context and start mode are forwarded unchanged. */
    method Launch(context: Context, start: Start) returns (job: Job)
      modifies this`started
      ensures (started, job) == Admit(!active, old(started), Coroutine(context, start))
    {
      if !active {
        return Inert;
      }
      job := Running(|started|);
      started := started + [Coroutine(context, start)];
    }

    /** dispose: the scope is cancelled and the wake-up service disposed. */
    method Dispose()
      requires Valid(wakeUp.Snapshot())
      modifies this`active, wakeUp
      ensures !active && started == old(started)
      ensures wakeUp.Snapshot() == AfterDispose(old(wakeUp.Snapshot()))
    {
      active := false;
      wakeUp.Dispose();
    }
  }

  /**
   * What the root exception handler of the Bukkit and Folia sessions does
   * with a failure: where it posts the `MCCoroutineExceptionEvent` (if it
   * does), and whether the failure is logged at SEVERE afterwards.
   */
  datatype Report = Report(postedOn: Option<Scheduler>, logged: bool)

  /**
   * Bukkit (package `bukkit.impl`): for an enabled plugin a main-thread task
   * posts the event, then logs unless a listener cancelled the event or the
   * failure is a cancellation; a disabled plugin reports nothing.
   */
  function BukkitReport(enabled: bool, eventCancelled: bool, f: Failure): (r: Report)
    ensures r.postedOn.Some? <==> enabled
    ensures r.postedOn.Some? ==> r.postedOn.value == BukkitMain
    ensures r.logged <==> enabled && !eventCancelled && f != Cancellation
  {
    if !enabled then Report(None, false)
    else Report(Some(BukkitMain), !eventCancelled && f != Cancellation)
  }

  /**
   * Folia: the same policy, but the event is posted from a coroutine
   * launched on the global region dispatcher, which is the Bukkit main
   * thread when Folia is not loaded.
   */
  function FoliaReport(foliaLoaded: bool, enabled: bool, eventCancelled: bool, f: Failure): (r: Report)
    ensures r.postedOn.Some? <==> enabled
    ensures r.postedOn.Some? ==> r.postedOn.value == if foliaLoaded then GlobalRegion else BukkitMain
    ensures r.logged <==> enabled && !eventCancelled && f != Cancellation
  {
    if !enabled then Report(None, false)
    else Report(Some(if foliaLoaded then GlobalRegion else BukkitMain), !eventCancelled && f != Cancellation)
  }

  /** A failure is logged only if its event was posted; cancellations never are; without Folia both platforms agree. */
  lemma ReportPolicies(foliaLoaded: bool, enabled: bool, eventCancelled: bool, f: Failure)
    ensures BukkitReport(enabled, eventCancelled, f).logged ==> BukkitReport(enabled, eventCancelled, f).postedOn.Some?
    ensures !BukkitReport(enabled, eventCancelled, Cancellation).logged
    ensures FoliaReport(foliaLoaded, enabled, eventCancelled, f).logged == BukkitReport(enabled, eventCancelled, f).logged
    ensures !foliaLoaded ==> FoliaReport(foliaLoaded, enabled, eventCancelled, f) == BukkitReport(enabled, eventCancelled, f)
  {
  }

  /** The Bukkit session of package `bukkit.impl`. */
  class BukkitSession {
    var active: bool
    var childrenCancelled: bool
    const wakeUp: WakeUpBlockService

    constructor (wakeUp: WakeUpBlockService)
      ensures active && !childrenCancelled && this.wakeUp == wakeUp
    {
      active := true;
      childrenCancelled := false;
      this.wakeUp := wakeUp;
    }

    /** The getter of isManipulatedServerHeartBeatEnabled reads the wake-up service's flag. */
    function HeartBeatEnabled(): (enabled: bool)
      reads wakeUp
      ensures enabled == wakeUp.Snapshot().heartBeat
    {
      wakeUp.heartBeat
    }

    /** The setter writes the wake-up service's flag and nothing else. */
    method SetHeartBeatEnabled(value: bool)
      modifies wakeUp`heartBeat
      ensures HeartBeatEnabled() == value
      ensures wakeUp.Snapshot() == old(wakeUp.Snapshot()).(heartBeat := value)
    {
      wakeUp.SetHeartBeat(value);
    }

    /** dispose: children cancelled, the scope cancelled, the wake-up service disposed. */
    method Dispose()
      requires Valid(wakeUp.Snapshot())
      modifies this, wakeUp
      ensures !active && childrenCancelled
      ensures wakeUp.Snapshot() == AfterDispose(old(wakeUp.Snapshot()))
    {
      childrenCancelled := true;
      active := false;
      wakeUp.Dispose();
    }
  }

  /** The dispatchers a Folia session can hand out. */
  datatype Dispatcher =
    | GlobalRegionDispatcher
    | BukkitMinecraftDispatcher
    | AsyncFoliaDispatcher
    | BukkitAsyncDispatcher
    | RegionDispatcher(world: nat, chunkX: int, chunkZ: int)
    | EntityDispatcher(entity: nat)

  /** dispatcherGlobalRegion: Folia's global region dispatcher, or the Bukkit minecraft dispatcher without Folia. */
  function GlobalDispatcher(foliaLoaded: bool): (d: Dispatcher)
    ensures d == GlobalRegionDispatcher <==> foliaLoaded
    ensures d == BukkitMinecraftDispatcher <==> !foliaLoaded
  {
    if foliaLoaded then GlobalRegionDispatcher else BukkitMinecraftDispatcher
  }

  /** dispatcherAsync: Folia's async dispatcher, or the Bukkit async dispatcher without Folia. */
  function AsyncDispatcher(foliaLoaded: bool): (d: Dispatcher)
    ensures d == AsyncFoliaDispatcher <==> foliaLoaded
    ensures d == BukkitAsyncDispatcher <==> !foliaLoaded
  {
    if foliaLoaded then AsyncFoliaDispatcher else BukkitAsyncDispatcher
  }

  /** getRegionDispatcher: the region of the chunk with Folia; the global dispatcher without it. */
  function RegionDispatcherOf(foliaLoaded: bool, world: nat, chunkX: int, chunkZ: int): (d: Dispatcher)
    ensures foliaLoaded ==> d == RegionDispatcher(world, chunkX, chunkZ)
    ensures !foliaLoaded ==> d == GlobalDispatcher(foliaLoaded)
  {
    if foliaLoaded then RegionDispatcher(world, chunkX, chunkZ) else GlobalDispatcher(foliaLoaded)
  }

  /** getEntityDispatcher: the entity's own dispatcher with Folia; the global dispatcher without it. */
  function EntityDispatcherOf(foliaLoaded: bool, entity: nat): (d: Dispatcher)
    ensures foliaLoaded ==> d == EntityDispatcher(entity)
    ensures !foliaLoaded ==> d == GlobalDispatcher(foliaLoaded)
  {
    if foliaLoaded then EntityDispatcher(entity) else GlobalDispatcher(foliaLoaded)
  }

  /** Without Folia every main-thread lookup collapses onto the Bukkit minecraft dispatcher; with it, no two coincide. */
  lemma FoliaSelection(foliaLoaded: bool, world: nat, chunkX: int, chunkZ: int, entity: nat)
    ensures !foliaLoaded ==>
      RegionDispatcherOf(foliaLoaded, world, chunkX, chunkZ) == EntityDispatcherOf(foliaLoaded, entity) == BukkitMinecraftDispatcher
    ensures foliaLoaded ==>
      RegionDispatcherOf(foliaLoaded, world, chunkX, chunkZ) != GlobalDispatcher(foliaLoaded) &&
      EntityDispatcherOf(foliaLoaded, entity) != GlobalDispatcher(foliaLoaded) &&
      RegionDispatcherOf(foliaLoaded, world, chunkX, chunkZ) != EntityDispatcherOf(foliaLoaded, entity)
  {
  }

  /**
   * The part of Folia's wake-up service the Folia session touches: its
   * heartbeat flag and its disposal (the service itself is not part of this
   * model).
   */
  class FoliaWakeUpService {
    var heartBeat: bool
    var disposed: bool

    constructor ()
      ensures !heartBeat && !disposed
    {
      heartBeat := false;
      disposed := false;
    }
  }

  /** The Folia session. */
  class FoliaSession {
    const foliaLoaded: bool
    const wakeUp: FoliaWakeUpService
    const dispatcherMain: MainDispatcher
    var active: bool

    constructor (foliaLoaded: bool, wakeUp: FoliaWakeUpService, dispatcherMain: MainDispatcher)
      ensures this.foliaLoaded == foliaLoaded && this.wakeUp == wakeUp && this.dispatcherMain == dispatcherMain && active
    {
      this.foliaLoaded := foliaLoaded;
      this.wakeUp := wakeUp;
      this.dispatcherMain := dispatcherMain;
      active := true;
    }

    function HeartBeatEnabled(): (enabled: bool)
      reads wakeUp
      ensures enabled == wakeUp.heartBeat
    {
      wakeUp.heartBeat
    }

    method SetHeartBeatEnabled(value: bool)
      modifies wakeUp`heartBeat
      ensures HeartBeatEnabled() == value && wakeUp.disposed == old(wakeUp.disposed)
    {
      wakeUp.heartBeat := value;
    }

    /** dispatcherMainThreadId reads the main dispatcher's thread id. */
    function MainThreadId(): (id: int)
      reads dispatcherMain
      ensures id == dispatcherMain.threadId
    {
      dispatcherMain.threadId
    }

    /** dispose: the scope is cancelled, the main dispatcher closed and the wake-up service disposed. */
    method Dispose()
      modifies this`active, dispatcherMain`isShutdown, wakeUp`disposed
      ensures !active && dispatcherMain.isShutdown && wakeUp.disposed
    {
      active := false;
      dispatcherMain.Close();
      wakeUp.disposed := true;
    }
  }
}
