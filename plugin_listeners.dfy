/**
 * The `PluginListener`s that tie a plugin's coroutine session to the server's
 * `PluginDisableEvent` (and, in the legacy Bukkit core, to player join and
 * quit). Their effect on the session registry is stated over the registry
 * values of `Registries`.
 */
module PluginListeners {
  import opened Runtime
  import opened Registries
  import Protocol

  /** `ShutdownStrategy` of the plugin's coroutine configuration. */
  datatype ShutdownStrategy = SchedulerStrategy | ManualStrategy

  /** What one `onPluginDisable` call did to the registry. */
  datatype Outcome = Outcome(registry: Registry<Plugin>, thrown: Option<Failure>, disposed: Option<Session>)

  /**
   * onPluginDisable of the Bukkit and Folia cores: another plugin's event is
   * ignored; for the own plugin the session is looked up (which creates one if
   * the plugin still counts as enabled, and throws if not) and, with strategy
   * SCHEDULER, the event's plugin is disabled.
   */
  function OnPluginDisable(r: Registry<Plugin>, own: Plugin, eventPlugin: Plugin, enabled: bool, strategy: ShutdownStrategy): (o: Outcome)
    ensures eventPlugin != own ==> o == Outcome(r, None, None)
    ensures eventPlugin == own && own in r.items && strategy == SchedulerStrategy ==>
      o == Outcome(Release(r, own).0, None, Some(r.items[own]))
    ensures eventPlugin == own && own in r.items && strategy == ManualStrategy ==> o == Outcome(r, None, None)
    ensures eventPlugin == own && own !in r.items && !enabled ==> o == Outcome(r, Some(PluginDisabled), None)
    ensures eventPlugin == own && own !in r.items && enabled && strategy == ManualStrategy ==>
      o == Outcome(Lookup(r, own, true).0, None, None) && own in o.registry.items && o.registry.items[own] == Session(r.created)
    ensures eventPlugin == own && own !in r.items && enabled && strategy == SchedulerStrategy ==>
      o.registry.items == r.items && o.disposed == Some(Session(r.created)) && o.thrown == None
    ensures forall k | k in r.items && k != own :: k in o.registry.items && o.registry.items[k] == r.items[k]
    ensures o.disposed.Some? ==> own !in o.registry.items && eventPlugin == own && strategy == SchedulerStrategy
  {
    if eventPlugin != own then Outcome(r, None, None)
    else
      var (r1, session) := Lookup(r, own, enabled);
      if session.Err? then Outcome(r1, Some(session.error), None)
      else if strategy == SchedulerStrategy then
        var (r2, disposed) := Release(r1, eventPlugin);
        Outcome(r2, None, disposed)
      else Outcome(r1, None, None)
  }

  /** onPluginDisable of the legacy Bukkit core: the own plugin is always disabled, nothing is looked up. */
  function LegacyOnPluginDisable(r: Registry<Plugin>, own: Plugin, eventPlugin: Plugin): (o: Outcome)
    ensures eventPlugin != own ==> o == Outcome(r, None, None)
    ensures eventPlugin == own ==>
      own !in o.registry.items && o.thrown == None &&
      o.disposed == (if own in r.items then Some(r.items[own]) else None)
    ensures forall k | k in r.items && k != own :: k in o.registry.items && o.registry.items[k] == r.items[k]
  {
    if eventPlugin != own then Outcome(r, None, None)
    else
      var (r1, disposed) := Release(r, eventPlugin);
      Outcome(r1, None, disposed)
  }

  /** A second disable event for the same plugin finds nothing left to dispose. */
  lemma DisableEventIsIdempotent(r: Registry<Plugin>, own: Plugin)
    ensures var o := LegacyOnPluginDisable(r, own, own);
            LegacyOnPluginDisable(o.registry, own, own) == Outcome(o.registry, None, None)
  {
  }

  /** Under strategy SCHEDULER the modern listener and the legacy one dispose the same session of a plugin that has one. */
  lemma SchedulerStrategyMatchesLegacy(r: Registry<Plugin>, own: Plugin, eventPlugin: Plugin, enabled: bool)
    requires own in r.items
    ensures OnPluginDisable(r, own, eventPlugin, enabled, SchedulerStrategy) == LegacyOnPluginDisable(r, own, eventPlugin)
  {
  }

  /** The player side of the legacy `PluginListener`, on the protocol service of the plugin's session. */
  class LegacyPlayerListener {
    const protocol: Protocol.ProtocolService

    constructor (protocol: Protocol.ProtocolService)
      ensures this.protocol == protocol
    {
      this.protocol := protocol;
    }

    /** onPlayerJoinEvent: the joining player is registered with the protocol service; only a player not yet cached gets an interceptor added to its channel. */
    method OnPlayerJoin(player: Protocol.Player, channel: Protocol.Channel)
      modifies protocol`cachedPlayerChannels, protocol`interceptorsAdded
      ensures player in protocol.cachedPlayerChannels
      ensures player in old(protocol.cachedPlayerChannels) ==>
        protocol.cachedPlayerChannels == old(protocol.cachedPlayerChannels) &&
        protocol.interceptorsAdded == old(protocol.interceptorsAdded)
      ensures player !in old(protocol.cachedPlayerChannels) ==>
        protocol.cachedPlayerChannels == old(protocol.cachedPlayerChannels)[player := channel] &&
        protocol.interceptorsAdded == old(protocol.interceptorsAdded) + [channel]
    {
      protocol.Register(player, channel);
    }

    /** onPlayerQuitEvent: the leaving player is unregistered, its cached channel receiving the removal task; nobody else is touched. */
    method OnPlayerQuit(player: Protocol.Player)
      modifies protocol`cachedPlayerChannels, protocol`interceptorsRemoved
      ensures protocol.cachedPlayerChannels == old(protocol.cachedPlayerChannels) - {player}
      ensures player !in old(protocol.cachedPlayerChannels) ==>
        protocol.interceptorsRemoved == old(protocol.interceptorsRemoved)
      ensures player in old(protocol.cachedPlayerChannels) ==>
        protocol.interceptorsRemoved == old(protocol.interceptorsRemoved) + [old(protocol.cachedPlayerChannels)[player]]
    {
      protocol.UnRegister(player);
    }
  }
}
