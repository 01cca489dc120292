/**
 * The dispatchers of the legacy Bukkit platform (package `dispatcher`). Both
 * record the primary thread in the wake-up service the first time they run on
 * it, then either run the block on the calling thread or schedule it and call
 * `ensureWakeup`: the minecraft dispatcher runs inline on the primary thread,
 * the async dispatcher runs inline off it.
 */
module LegacyDispatchers {
  import opened Runtime
  import opened WakeUp

  /** The wake-up service after the primary-thread capture of lines 20-22 of both dispatchers. */
  function Captured(s: Service, isPrimary: bool, current: ThreadId): (r: Service)
    ensures Valid(s) ==> Valid(r)
    ensures s.primaryThread.Some? ==> r == s
    ensures r.primaryThread.Some? <==> s.primaryThread.Some? || isPrimary
    ensures r.heartBeat == s.heartBeat && r.threadSupport == s.threadSupport && r.created == s.created
  {
    if s.primaryThread == None && isPrimary then s.(primaryThread := Some(current)) else s
  }

  class MinecraftCoroutineDispatcher {
    const wakeUp: LegacyWakeUpBlockService

    constructor (wakeUp: LegacyWakeUpBlockService)
      ensures this.wakeUp == wakeUp
    {
      this.wakeUp := wakeUp;
    }

    method Dispatch(enabled: bool, isPrimary: bool, current: ThreadId, block: Block) returns (effects: seq<Effect>)
      requires Valid(wakeUp.Snapshot())
      modifies wakeUp
      ensures !enabled ==> effects == [] && wakeUp.Snapshot() == old(wakeUp.Snapshot())
      ensures enabled && isPrimary ==>
        effects == [RunInline(block)] && wakeUp.Snapshot() == Captured(old(wakeUp.Snapshot()), isPrimary, current)
      ensures enabled && !isPrimary ==>
        NeverInline(effects) && SubmittedTo(effects, BukkitMain) == |effects| == 1 && effects[0].task == Plain(block) &&
        wakeUp.Snapshot() == EnsureLegacy(old(wakeUp.Snapshot())).0
    {
      if !enabled {
        return [];
      }
      if wakeUp.primaryThread == None && isPrimary {
        wakeUp.SetPrimaryThread(current);
      }
      if isPrimary {
        effects := [RunInline(block)];
      } else {
        effects := [Submit(BukkitMain, Plain(block))];
        var _ := wakeUp.EnsureWakeup();
      }
    }
  }

  class AsyncCoroutineDispatcher {
    const wakeUp: LegacyWakeUpBlockService

    constructor (wakeUp: LegacyWakeUpBlockService)
      ensures this.wakeUp == wakeUp
    {
      this.wakeUp := wakeUp;
    }

    method Dispatch(enabled: bool, isPrimary: bool, current: ThreadId, block: Block) returns (effects: seq<Effect>)
      requires Valid(wakeUp.Snapshot())
      modifies wakeUp
      ensures !enabled ==> effects == [] && wakeUp.Snapshot() == old(wakeUp.Snapshot())
      ensures enabled && isPrimary ==>
        NeverInline(effects) && SubmittedTo(effects, BukkitAsync) == |effects| == 1 && effects[0].task == Plain(block) &&
        wakeUp.Snapshot() == EnsureLegacy(Captured(old(wakeUp.Snapshot()), isPrimary, current)).0
      ensures enabled && !isPrimary ==>
        effects == [RunInline(block)] && wakeUp.Snapshot() == old(wakeUp.Snapshot())
    {
      if !enabled {
        return [];
      }
      if wakeUp.primaryThread == None && isPrimary {
        wakeUp.SetPrimaryThread(current);
      }
      if isPrimary {
        effects := [Submit(BukkitAsync, Plain(block))];
        var _ := wakeUp.EnsureWakeup();
      } else {
        effects := [RunInline(block)];
      }
    }
  }
}
