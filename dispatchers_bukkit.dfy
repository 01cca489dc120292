/**
 * The dispatchers of the current Bukkit platform (package `bukkit.dispatcher`).
 * Both consult the plugin's wake-up service when asked whether a dispatch is
 * needed; the minecraft dispatcher hands blocks to the main-thread scheduler,
 * possibly through a `CoroutineTimings` queue, and the async dispatcher hands
 * them to the asynchronous scheduler.
 */
module BukkitDispatchers {
  import opened Runtime
  import opened WakeUp
  import opened TickQueues

  /** Id of a `BukkitTask` returned by the scheduler. */
  type TaskId = nat

  /** The `CoroutineBukkitTasks` context element: the tasks created for one coroutine. */
  class CoroutineBukkitTasks {
    var tasks: seq<TaskId>

    constructor ()
      ensures tasks == []
    {
      tasks := [];
    }
  }

  /** The minecraft dispatcher needs a dispatch exactly off the primary thread of an enabled plugin. */
  predicate MinecraftNeedsDispatch(isPrimary: bool, enabled: bool)
  {
    !isPrimary && enabled
  }

  /** The async dispatcher needs a dispatch exactly on the primary thread of an enabled plugin. */
  predicate AsyncNeedsDispatch(isPrimary: bool, enabled: bool)
  {
    enabled && isPrimary
  }

  /** For an enabled plugin exactly one of the two dispatchers needs a dispatch; for a disabled one neither does. */
  lemma ExactlyOneNeedsDispatch(isPrimary: bool, enabled: bool)
    ensures enabled ==> (MinecraftNeedsDispatch(isPrimary, enabled) <==> !AsyncNeedsDispatch(isPrimary, enabled))
    ensures !enabled ==> !MinecraftNeedsDispatch(isPrimary, enabled) && !AsyncNeedsDispatch(isPrimary, enabled)
  {
  }

  /** `AsyncCoroutineDispatcher.dispatch`: one hand-off to the asynchronous scheduler, whatever the state. */
  function AsyncDispatch(block: Block): (effects: seq<Effect>)
    ensures NeverInline(effects)
    ensures SubmittedTo(effects, BukkitAsync) == |effects| == 1
    ensures effects[0].task == Plain(block)
  {
    [Submit(BukkitAsync, Plain(block))]
  }

  class MinecraftCoroutineDispatcher {
    const wakeUp: WakeUpBlockService

    constructor (wakeUp: WakeUpBlockService)
      ensures this.wakeUp == wakeUp
    {
      this.wakeUp := wakeUp;
    }

    /** Always calls `ensureWakeup` first, then decides. */
    method IsDispatchNeeded(isPrimary: bool, current: ThreadId, enabled: bool) returns (needed: bool)
      requires Valid(wakeUp.Snapshot())
      modifies wakeUp
      ensures needed == MinecraftNeedsDispatch(isPrimary, enabled)
      ensures wakeUp.Snapshot() == Ensure(old(wakeUp.Snapshot()), isPrimary, current).0
    {
      var _ := wakeUp.EnsureWakeup(isPrimary, current);
      needed := !isPrimary && enabled;
    }

    /**
     * A disabled plugin drops the block. Without a timings element the block
     * itself is scheduled; with one, the block joins the tail of its queue and
     * the timings runnable is scheduled. A task-tracking element gains the id
     * of the scheduled task.
     */
    method Dispatch(enabled: bool, block: Block, timings: CoroutineTimings?, tracker: CoroutineBukkitTasks?,
                    scheduled: TaskId) returns (effects: seq<Effect>)
      modifies timings, tracker
      ensures NeverInline(effects)
      ensures !enabled ==> effects == []
      ensures enabled ==> SubmittedTo(effects, BukkitMain) == |effects| == 1
      ensures enabled && timings == null ==> effects[0].task == Plain(block)
      ensures enabled && timings != null ==> effects[0].task == TimingsRunnable
      ensures timings != null ==>
        timings.ran == old(timings.ran) &&
        timings.queue == if enabled then old(timings.queue) + [block] else old(timings.queue)
      ensures tracker != null ==> tracker.tasks == if enabled then old(tracker.tasks) + [scheduled] else old(tracker.tasks)
    {
      if !enabled {
        return [];
      }
      if timings == null {
        effects := [Submit(BukkitMain, Plain(block))];
      } else {
        timings.Add(block);
        effects := [Submit(BukkitMain, TimingsRunnable)];
      }
      if tracker != null {
        tracker.tasks := tracker.tasks + [scheduled];
      }
    }
  }

  class AsyncCoroutineDispatcher {
    const wakeUp: WakeUpBlockService

    constructor (wakeUp: WakeUpBlockService)
      ensures this.wakeUp == wakeUp
    {
      this.wakeUp := wakeUp;
    }

    /** A disabled plugin answers `false` without touching the wake-up service. */
    method IsDispatchNeeded(isPrimary: bool, current: ThreadId, enabled: bool) returns (needed: bool)
      requires Valid(wakeUp.Snapshot())
      modifies wakeUp
      ensures needed == AsyncNeedsDispatch(isPrimary, enabled)
      ensures !enabled ==> wakeUp.Snapshot() == old(wakeUp.Snapshot())
      ensures enabled ==> wakeUp.Snapshot() == Ensure(old(wakeUp.Snapshot()), isPrimary, current).0
    {
      if !enabled {
        return false;
      }
      var _ := wakeUp.EnsureWakeup(isPrimary, current);
      needed := isPrimary;
    }
  }
}
