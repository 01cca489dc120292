/**
 * The sample plugins' `UserDataCache` (one per platform, all alike): one
 * `Deferred<UserData>` per player, fetched from a fake database on first
 * request; and the sample's table of supported packet types.
 */
module Samples {
  import opened Runtime

  type Player = nat
  type UserData = nat

  /** A `Deferred<UserData>` started by `async`: `id` tells deferreds apart, `player` is whose data it fetches. */
  datatype Deferred = Deferred(id: nat, player: Player)

  /** No `NullPointerException` (`Ok`), or the `!!` of a lookup that found nothing. */
  datatype NullPointer = NullPointer

  /**
   * The get-or-insert of `getUserDataFromPlayerAsync`: a cached player keeps
   * its deferred and nothing starts; an uncached one gets a new deferred
   * (number `next`) fetching its data. The flag says whether a fetch started.
   */
  function GetOrInsert(cache: map<Player, Deferred>, player: Player, next: nat): (r: (map<Player, Deferred>, Deferred, bool))
    ensures player in r.0 && r.0[player] == r.1
    ensures r.2 <==> player !in cache
    ensures player in cache ==> r.0 == cache && r.1 == cache[player]
    ensures player !in cache ==> r.0.Keys == cache.Keys + {player} && r.1 == Deferred(next, player)
    ensures forall q | q in cache && q != player :: q in r.0 && r.0[q] == cache[q]
  {
    if player !in cache then (cache[player := Deferred(next, player)], Deferred(next, player), true)
    else (cache, cache[player], false)
  }

  /** A cache whose every deferred fetches its own player's data, with numbers below `next`. */
  predicate Coherent(cache: map<Player, Deferred>, next: nat) {
    forall p | p in cache :: cache[p].player == p && cache[p].id < next
  }

  /** A second request for the same player returns the deferred of the first and starts nothing. */
  lemma RepeatedRequestReturnsSameDeferred(cache: map<Player, Deferred>, player: Player, next1: nat, next2: nat)
    ensures var (c1, d1, _) := GetOrInsert(cache, player, next1);
            var (c2, d2, fetched) := GetOrInsert(c1, player, next2);
            c2 == c1 && d2 == d1 && !fetched
  {
  }

  /** Get-or-insert keeps a coherent cache coherent once the counter moves past the new deferred. */
  lemma GetOrInsertKeepsCoherent(cache: map<Player, Deferred>, player: Player, next: nat)
    requires Coherent(cache, next)
    ensures Coherent(GetOrInsert(cache, player, next).0, next + 1)
  {
  }

  /** After `clearCache` the next request starts a new fetch, whose deferred differs from every one still cached. */
  lemma ClearThenRequestRefetches(cache: map<Player, Deferred>, player: Player, next: nat)
    requires Coherent(cache, next)
    ensures var (c, d, fetched) := GetOrInsert(cache - {player}, player, next);
            fetched && (forall q | q in cache :: cache[q] != d)
  {
  }

  class UserDataCache {
    var cache: map<Player, Deferred>
    /** Number of the next deferred `async` hands out. */
    var next: nat
    /** The players whose data an `async` block started fetching, in order. */
    var fetches: seq<Player>
    /** What `saveUserData` handed to the database, in order. */
    var saved: seq<UserData>
    /** `fakeDatabase.getUserDataFromPlayer`. */
    const database: Player -> UserData

    ghost predicate Valid()
      reads this
    {
      Coherent(cache, next)
    }

    constructor (database: Player -> UserData)
      ensures Valid() && cache == map[] && fetches == [] && saved == [] && this.database == database
    {
      cache := map[];
      next := 0;
      fetches := [];
      saved := [];
      this.database := database;
    }

    /** clearCache: only this player's entry goes; a player not cached is a no-op. */
    method ClearCache(player: Player)
      requires Valid()
      modifies this`cache
      ensures Valid()
      ensures cache == old(cache) - {player}
    {
      cache := cache - {player};
    }

    /**
     * saveUserData: the player's cached data is awaited and saved; for a
     * player not cached the `!!` throws and nothing is saved.
     */
    method SaveUserData(player: Player) returns (r: Result<(), NullPointer>)
      requires Valid()
      modifies this`saved
      ensures r.Err? <==> player !in cache
      ensures player !in cache ==> saved == old(saved)
      ensures player in cache ==> saved == old(saved) + [database(player)]
    {
      if player !in cache {
        return Err(NullPointer);
      }
      var userData := database(cache[player].player);
      saved := saved + [userData];
      return Ok(());
    }

    /**
     * getUserDataFromPlayerAsync: the player's deferred, started (and its
     * fetch logged) only when the player was not cached.
     */
    method GetUserDataFromPlayerAsync(player: Player) returns (d: Deferred)
      requires Valid()
      modifies this`cache, this`next, this`fetches
      ensures Valid()
      ensures (cache, d, |fetches| > |old(fetches)|) == GetOrInsert(old(cache), player, old(next))
      ensures fetches == old(fetches) + if player in old(cache) then [] else [player]
      ensures d.player == player
    {
      if player !in cache {
        cache := cache[player := Deferred(next, player)];
        fetches := fetches + [player];
        next := next + 1;
      }
      d := cache[player];
    }

    /**
     * getUserDataFromPlayer: the awaited value of the player's deferred (the
     * suspending variant, and the `future` wrapper of the others), which is
     * that player's data.
     */
    method GetUserDataFromPlayer(player: Player) returns (data: UserData)
      requires Valid()
      modifies this`cache, this`next, this`fetches
      ensures Valid()
      ensures (cache, |fetches| > |old(fetches)|) == (GetOrInsert(old(cache), player, old(next)).0, player !in old(cache))
      ensures data == database(player)
    {
      var d := GetUserDataFromPlayerAsync(player);
      data := database(d.player);
    }
  }

  /** `MySupportedPacketType`. */
  datatype PacketType = PacketPlayInPositionLook

  function SimpleName(t: PacketType): string {
    match t
    case PacketPlayInPositionLook => "PacketPlayInPositionLook"
  }

  function ClassPath(t: PacketType): string {
    match t
    case PacketPlayInPositionLook => "net.minecraft.server.VERSION.PacketPlayInFlying$PacketPlayInPositionLook"
  }

  /** The companion's table from simple name to packet type. */
  const SupportedPacketTypes: map<string, PacketType> := map[SimpleName(PacketPlayInPositionLook) := PacketPlayInPositionLook]

  /** findSupportedPacketType: the type whose simple name is exactly `name`, or null. */
  function FindSupportedPacketType(name: string): (r: Option<PacketType>)
    ensures r.Some? ==> SimpleName(r.value) == name
    ensures r.None? <==> forall t: PacketType :: SimpleName(t) != name
  {
    if name in SupportedPacketTypes then Some(SupportedPacketTypes[name]) else None
  }

  /** Every packet type is found by its own simple name. */
  lemma FindBySimpleName(t: PacketType)
    ensures FindSupportedPacketType(SimpleName(t)) == Some(t)
  {
  }
}
