/**
 * The dispatchers of the Folia platform: the minecraft dispatcher used when
 * Folia is not loaded, the entity dispatcher that follows one entity between
 * regions, and the global region dispatcher. Each of them calls the wake-up
 * service before every decision; Folia's wake-up service is not part of this
 * model, so a decision records that call as `wakesUp`.
 */
module FoliaDispatchers {
  import opened Runtime
  import opened TickQueues

  /** The answer of `isDispatchNeeded`, and whether `ensureWakeup` was called before it. */
  datatype Decision = Decision(wakesUp: bool, needed: bool)

  /** MinecraftCoroutineDispatcher.isDispatchNeeded. */
  function MinecraftIsDispatchNeeded(isPrimary: bool, enabled: bool): (d: Decision)
    ensures d.wakesUp
    ensures d.needed <==> enabled && !isPrimary
  {
    Decision(true, !isPrimary && enabled)
  }

  /**
   * MinecraftCoroutineDispatcher.dispatch: a disabled plugin drops the block;
   * otherwise the block, or a timings runnable whose queue gained the block,
   * is scheduled once on the main thread.
   */
  method MinecraftDispatch(enabled: bool, block: Block, timings: CoroutineTimings?) returns (effects: seq<Effect>)
    modifies timings
    ensures NeverInline(effects)
    ensures !enabled ==> effects == []
    ensures enabled ==> SubmittedTo(effects, BukkitMain) == |effects| == 1
    ensures enabled && timings == null ==> effects[0].task == Plain(block)
    ensures enabled && timings != null ==> effects[0].task == TimingsRunnable
    ensures timings != null ==>
      timings.ran == old(timings.ran) &&
      timings.queue == if enabled then old(timings.queue) + [block] else old(timings.queue)
  {
    if !enabled {
      return [];
    }
    if timings == null {
      effects := [Submit(BukkitMain, Plain(block))];
    } else {
      timings.Add(block);
      effects := [Submit(BukkitMain, TimingsRunnable)];
    }
  }

  /** EntityDispatcher.isDispatchNeeded and GlobalRegionDispatcher.isDispatchNeeded. */
  function RegionIsDispatchNeeded(): (d: Decision)
    ensures d.wakesUp && d.needed
  {
    Decision(true, true)
  }

  /**
   * EntityDispatcher.dispatch: the block goes to the entity's scheduler, as
   * task and as retired callback; when that scheduler refuses it (the entity
   * was removed) the block goes to the global region scheduler instead. There
   * is no check of the plugin's state.
   */
  function EntityDispatch(entityRemoved: bool, block: Block): (effects: seq<Effect>)
    ensures NeverInline(effects) && Submissions(effects) == |effects| == 1
    ensures !entityRemoved ==> effects[0] == Submit(EntityScheduler, WithRetired(block, block))
    ensures entityRemoved ==> effects[0] == Submit(GlobalRegion, Plain(block))
  {
    if !entityRemoved then [Submit(EntityScheduler, WithRetired(block, block))]
    else [Submit(GlobalRegion, Plain(block))]
  }

  /** GlobalRegionDispatcher.dispatch: one hand-off to the global region scheduler, enabled or not. */
  function GlobalRegionDispatch(block: Block): (effects: seq<Effect>)
    ensures NeverInline(effects)
    ensures SubmittedTo(effects, GlobalRegion) == |effects| == 1 && effects[0].task == Plain(block)
  {
    [Submit(GlobalRegion, Plain(block))]
  }
}
