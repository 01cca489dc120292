/**
 * The dispatchers of the Minestom, Fabric, Sponge, BungeeCord and Velocity
 * platforms. None of them runs a block inline: a dispatch either hands the
 * block to the platform's scheduler once or, for a disabled plugin, drops it.
 */

/** Minestom: the main dispatcher learns the tick thread from its first scheduled process. */
module MinestomDispatchers {
  import opened Runtime

  class MinecraftCoroutineDispatcher {
    var mainThreadId: int

    constructor ()
      ensures mainThreadId == -1
    {
      mainThreadId := -1;
    }

    /** The action scheduled by `init` with `scheduleNextProcess`: it runs on the tick thread and records it. */
    method RecordMainThread(tickThread: ThreadId)
      modifies this
      ensures mainThreadId == tickThread
    {
      mainThreadId := tickThread;
    }

    /** Needed exactly off the recorded thread; before it is recorded every thread needs a dispatch. */
    method IsDispatchNeeded(current: ThreadId) returns (needed: bool)
      ensures needed <==> current != mainThreadId
      ensures mainThreadId == -1 ==> needed
    {
      needed := current != mainThreadId;
    }
  }

  /** MinecraftCoroutineDispatcher.dispatch: always the start of the next tick, never inline. */
  function MinecraftDispatch(block: Block): (effects: seq<Effect>)
    ensures NeverInline(effects)
    ensures SubmittedTo(effects, MinestomTickStart) == |effects| == 1 && effects[0].task == Plain(block)
  {
    [Submit(MinestomTickStart, Plain(block))]
  }

  /** AsyncCoroutineDispatcher.isDispatchNeeded: the stateless async dispatcher always dispatches. */
  function AsyncIsDispatchNeeded(current: ThreadId): (needed: bool)
    ensures needed
  {
    true
  }

  /** AsyncCoroutineDispatcher.dispatch: the start of the next tick as well. */
  function AsyncDispatch(block: Block): (effects: seq<Effect>)
    ensures NeverInline(effects)
    ensures SubmittedTo(effects, MinestomTickStart) == |effects| == 1 && effects[0].task == Plain(block)
  {
    [Submit(MinestomTickStart, Plain(block))]
  }
}

/** Fabric: the dispatcher learns the server thread from the first task it gives the server executor. */
module FabricDispatchers {
  import opened Runtime

  class MinecraftCoroutineDispatcher {
    var mainThreadId: int

    constructor ()
      ensures mainThreadId == -1
    {
      mainThreadId := -1;
    }

    /** The task `init` hands to the executor: it runs on the server thread and records it. */
    method RecordMainThread(serverThread: ThreadId)
      modifies this
      ensures mainThreadId == serverThread
    {
      mainThreadId := serverThread;
    }

    method IsDispatchNeeded(current: ThreadId) returns (needed: bool)
      ensures needed <==> current != mainThreadId
      ensures mainThreadId == -1 ==> needed
    {
      needed := current != mainThreadId;
    }
  }

  /** MinecraftCoroutineDispatcher.dispatch: `executor.execute(block)`, exactly once. */
  function MinecraftDispatch(block: Block): (effects: seq<Effect>)
    ensures NeverInline(effects)
    ensures SubmittedTo(effects, ServerExecutor) == |effects| == 1 && effects[0].task == Plain(block)
  {
    [Submit(ServerExecutor, Plain(block))]
  }
}

/** Sponge: the async dispatcher. */
module SpongeDispatchers {
  import opened Runtime

  /** A dispatch is needed exactly on the main thread. */
  function AsyncIsDispatchNeeded(isMainThread: bool): (needed: bool)
    ensures needed <==> isMainThread
  {
    isMainThread
  }

  /** A disabled plugin drops the block; otherwise one async task runs it. */
  function AsyncDispatch(enabled: bool, block: Block): (effects: seq<Effect>)
    ensures NeverInline(effects)
    ensures !enabled ==> effects == []
    ensures enabled ==> SubmittedTo(effects, SpongeAsync) == |effects| == 1 && effects[0].task == Plain(block)
  {
    if !enabled then [] else [Submit(SpongeAsync, Plain(block))]
  }
}

/** BungeeCord: the proxy has no main thread, so every dispatch goes to `runAsync`. */
module BungeeCordDispatchers {
  import opened Runtime

  function IsDispatchNeeded(): (needed: bool)
    ensures needed
  {
    true
  }

  function Dispatch(enabled: bool, block: Block): (effects: seq<Effect>)
    ensures NeverInline(effects)
    ensures !enabled ==> effects == []
    ensures enabled ==> SubmittedTo(effects, BungeeAsync) == |effects| == 1 && effects[0].task == Plain(block)
  {
    if !enabled then [] else [Submit(BungeeAsync, Plain(block))]
  }
}

/** Velocity: every dispatch builds and schedules one task. */
module VelocityDispatchers {
  import opened Runtime

  function IsDispatchNeeded(): (needed: bool)
    ensures needed
  {
    true
  }

  function Dispatch(enabled: bool, block: Block): (effects: seq<Effect>)
    ensures NeverInline(effects)
    ensures !enabled ==> effects == []
    ensures enabled ==> SubmittedTo(effects, VelocityScheduler) == |effects| == 1 && effects[0].task == Plain(block)
  {
    if !enabled then [] else [Submit(VelocityScheduler, Plain(block))]
  }
}
