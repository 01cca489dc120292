/**
 * The packet bookkeeping of the legacy Bukkit `ProtocolServiceImpl`: the
 * channel cached per joined player, the set of packet classes that raise
 * `PlayerPacketEvent`s, and what reading a packet does with them.
 *
 * How a player's Netty channel is reached (reflection into the server) is an
 * input: `Register` receives the channel. The interceptor installed in the
 * channel's pipeline, the removal task posted to the channel's event loop and
 * the event task posted to the Bukkit scheduler are recorded in logs.
 */
module Protocol {
  import opened Runtime

  type Player = nat
  type Channel = nat
  type PacketClass = nat

  /** A `runTask` posted by `onMessageReceive`: call a `PlayerPacketEvent` for this player and packet. */
  datatype PacketEventTask = PacketEventTask(player: Player, packet: PacketClass)

  /** `onMessageReceive` never cancels; it posts an event task exactly when some player is cached and the packet's class is registered. */
  function MessageReceived(cached: map<Player, Channel>, registered: set<PacketClass>, player: Player, packet: PacketClass): (r: (bool, seq<PacketEventTask>))
    ensures !r.0
    ensures |r.1| <= 1
    ensures r.1 != [] <==> cached != map[] && packet in registered
    ensures r.1 != [] ==> r.1 == [PacketEventTask(player, packet)]
  {
    if cached == map[] then (false, [])
    else if packet !in registered then (false, [])
    else (false, [PacketEventTask(player, packet)])
  }

  class ProtocolService {
    var cachedPlayerChannels: map<Player, Channel>
    var registeredPackets: set<PacketClass>
    /** Channels that received this service's interceptor, in order. */
    var interceptorsAdded: seq<Channel>
    /** Removal tasks posted to channel event loops, in order. */
    var interceptorsRemoved: seq<Channel>
    /** Event tasks posted to the Bukkit scheduler, in order. */
    var eventTasks: seq<PacketEventTask>

    constructor ()
      ensures cachedPlayerChannels == map[] && registeredPackets == {}
      ensures interceptorsAdded == [] && interceptorsRemoved == [] && eventTasks == []
    {
      cachedPlayerChannels := map[];
      registeredPackets := {};
      interceptorsAdded := [];
      interceptorsRemoved := [];
      eventTasks := [];
    }

    /** registerPackets: every given class joins the set. */
    method RegisterPackets(packets: seq<PacketClass>)
      modifies this`registeredPackets
      ensures registeredPackets == old(registeredPackets) + (set c | c in packets)
    {
      registeredPackets := registeredPackets + (set c | c in packets);
    }

    /** register: a cached player is left alone; otherwise the interceptor goes into its channel and the channel is cached. */
    method Register(player: Player, channel: Channel)
      modifies this`cachedPlayerChannels, this`interceptorsAdded
      ensures player in old(cachedPlayerChannels) ==>
        cachedPlayerChannels == old(cachedPlayerChannels) && interceptorsAdded == old(interceptorsAdded)
      ensures player !in old(cachedPlayerChannels) ==>
        cachedPlayerChannels == old(cachedPlayerChannels)[player := channel] &&
        interceptorsAdded == old(interceptorsAdded) + [channel]
    {
      if player in cachedPlayerChannels {
        return;
      }
      interceptorsAdded := interceptorsAdded + [channel];
      cachedPlayerChannels := cachedPlayerChannels[player := channel];
    }

    /** unRegister: an uncached player is left alone; otherwise its interceptor removal is posted and only its entry goes. */
    method UnRegister(player: Player)
      modifies this`cachedPlayerChannels, this`interceptorsRemoved
      ensures player !in old(cachedPlayerChannels) ==>
        cachedPlayerChannels == old(cachedPlayerChannels) && interceptorsRemoved == old(interceptorsRemoved)
      ensures player in old(cachedPlayerChannels) ==>
        cachedPlayerChannels == old(cachedPlayerChannels) - {player} &&
        interceptorsRemoved == old(interceptorsRemoved) + [old(cachedPlayerChannels)[player]]
    {
      if player !in cachedPlayerChannels {
        return;
      }
      var channel := cachedPlayerChannels[player];
      interceptorsRemoved := interceptorsRemoved + [channel];
      cachedPlayerChannels := cachedPlayerChannels - {player};
    }

    /**
     * dispose: every cached player is unregistered, in the hash map's order
     * (returned as `order`), and the packet set is cleared. Each cached
     * channel gets exactly one removal task.
     */
    method Dispose() returns (order: seq<Player>)
      modifies this`cachedPlayerChannels, this`interceptorsRemoved, this`registeredPackets
      ensures cachedPlayerChannels == map[] && registeredPackets == {}
      ensures Distinct(order) && (set p | p in order) == old(cachedPlayerChannels).Keys
      ensures |interceptorsRemoved| == |old(interceptorsRemoved)| + |order|
      ensures interceptorsRemoved[..|old(interceptorsRemoved)|] == old(interceptorsRemoved)
      ensures forall k | 0 <= k < |order| ::
        order[k] in old(cachedPlayerChannels) &&
        interceptorsRemoved[|old(interceptorsRemoved)| + k] == old(cachedPlayerChannels)[order[k]]
    {
      var cached := cachedPlayerChannels;
      var removed := interceptorsRemoved;
      order := Enumerate(cachedPlayerChannels.Keys);
      var i := 0;
      while i < |order|
        invariant 0 <= i <= |order|
        invariant cachedPlayerChannels.Keys == cached.Keys - Prefix(order, i)
        invariant forall p | p in cachedPlayerChannels :: p in cached && cachedPlayerChannels[p] == cached[p]
        invariant |interceptorsRemoved| == |removed| + i
        invariant interceptorsRemoved[..|removed|] == removed
        invariant forall k | 0 <= k < i :: order[k] in cached && interceptorsRemoved[|removed| + k] == cached[order[k]]
      {
        PrefixStep(order, i);
        UnRegister(order[i]);
        i := i + 1;
      }
      PrefixAll(order);
      registeredPackets := {};
    }

    /** onMessageReceive: never cancels the packet; posts the event task that `MessageReceived` names. */
    method OnMessageReceive(player: Player, packet: PacketClass) returns (cancelled: bool)
      modifies this`eventTasks
      ensures var r := MessageReceived(cachedPlayerChannels, registeredPackets, player, packet);
              cancelled == r.0 && eventTasks == old(eventTasks) + r.1
    {
      if cachedPlayerChannels == map[] {
        return false;
      }
      if packet !in registeredPackets {
        return false;
      }
      eventTasks := eventTasks + [PacketEventTask(player, packet)];
      return false;
    }

    /**
     * PacketInterceptor.channelRead and write: a failure while serialising the
     * packet (reached only past both guards) is logged at SEVERE and posts no
     * task; either way the packet is passed on down the pipeline.
     */
    method Intercept(player: Player, packet: PacketClass, serialisationFails: bool) returns (passedOn: bool, loggedSevere: bool)
      modifies this`eventTasks
      ensures passedOn
      ensures loggedSevere <==> serialisationFails && cachedPlayerChannels != map[] && packet in registeredPackets
      ensures eventTasks == old(eventTasks) + if loggedSevere then [] else MessageReceived(cachedPlayerChannels, registeredPackets, player, packet).1
    {
      var cancelled := false;
      if serialisationFails && cachedPlayerChannels != map[] && packet in registeredPackets {
        loggedSevere := true;
      } else {
        loggedSevere := false;
        cancelled := OnMessageReceive(player, packet);
      }
      passedOn := !cancelled;
    }
  }
}
