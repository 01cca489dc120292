/**
 * The session registries (`MCCoroutineImpl` of every platform): a map from a
 * plugin (or extension, mod, plugin container) to its coroutine session.
 * `getCoroutineSession` starts a session for a key that has none and returns
 * the stored one; `disable` disposes the stored session and removes its key.
 *
 * A session is identified by the number of sessions the registry had started
 * before it, so every session a registry starts is new. What a registry does
 * to the world besides its map (disposing a session, registering its plugin
 * listener) is recorded, in order, in a log of steps.
 */
module Registries {
  import opened Runtime

  /** A coroutine session started by a registry. */
  datatype Session = Session(id: nat)

  /** Why a registry call throws. */
  datatype Failure =
    | PluginDisabled   // RuntimeException: a disabled plugin may not start a session
    | NotSetUp         // IllegalArgumentException: a Velocity plugin without a session

  /** What a registry did outside its map. */
  datatype Step<K> =
    | Started(key: K, session: Session)
    | ListenerRegistered(key: K)
    | Disposed(session: Session)

  /** The map of a registry and the number of sessions it has started. */
  datatype Registry<K> = Registry(items: map<K, Session>, created: nat)

  /** Every stored session was started by this registry, and no session is stored under two keys. */
  ghost predicate WellFormed<K>(r: Registry<K>)
  {
    (forall k | k in r.items :: r.items[k].id < r.created) &&
    (forall k1, k2 | k1 in r.items && k2 in r.items && k1 != k2 :: r.items[k1] != r.items[k2])
  }

  /** `s` was started by the registry and is no longer stored under any key. */
  ghost predicate Retired<K>(r: Registry<K>, s: Session)
  {
    s.id < r.created && forall k | k in r.items :: r.items[k] != s
  }

  /**
   * getCoroutineSession: the stored session when there is one; otherwise a
   * new session is started under `key` if `canStart`, and the start throws,
   * changing nothing, if not.
   */
  function Lookup<K>(r: Registry<K>, key: K, canStart: bool): (res: (Registry<K>, Result<Session, Failure>))
    ensures key in r.items ==> res == (r, Ok(r.items[key]))
    ensures key !in r.items && !canStart ==> res == (r, Err(PluginDisabled))
    ensures key !in r.items && canStart ==>
      res.1 == Ok(Session(r.created)) && res.0 == Registry(r.items[key := Session(r.created)], r.created + 1)
    ensures res.1.Ok? ==> key in res.0.items && res.0.items[key] == res.1.value
    ensures forall k | k in r.items.Keys + res.0.items.Keys && k != key :: k in res.0.items && k in r.items && res.0.items[k] == r.items[k]
    ensures WellFormed(r) ==> WellFormed(res.0)
  {
    if key in r.items then (r, Ok(r.items[key]))
    else if !canStart then (r, Err(PluginDisabled))
    else (Registry(r.items[key := Session(r.created)], r.created + 1), Ok(Session(r.created)))
  }

  /**
   * disable: nothing for a key without a session; otherwise the stored
   * session is disposed (it is returned here) and only its key is removed.
   */
  function Release<K>(r: Registry<K>, key: K): (res: (Registry<K>, Option<Session>))
    ensures key !in r.items ==> res == (r, None)
    ensures key in r.items ==> res.1 == Some(r.items[key]) && res.0 == Registry(r.items - {key}, r.created)
    ensures key !in res.0.items
    ensures forall k | k in r.items.Keys + res.0.items.Keys && k != key :: k in res.0.items && k in r.items && res.0.items[k] == r.items[k]
    ensures WellFormed(r) && res.1.Some? ==> Retired(res.0, res.1.value)
  {
    if key !in r.items then (r, None) else (Registry(r.items - {key}, r.created), Some(r.items[key]))
  }

  /** Two lookups for the same key in a row return the same session, and the second changes nothing. */
  lemma LookupTwiceSameSession<K>(r: Registry<K>, key: K, canStart: bool, canStartAgain: bool)
    requires Lookup(r, key, canStart).1.Ok?
    ensures Lookup(Lookup(r, key, canStart).0, key, canStartAgain) == (Lookup(r, key, canStart).0, Lookup(r, key, canStart).1)
  {
  }

  /** One registry call: a lookup (which may or may not start a session) or a disable. */
  datatype Op<K> = Get(key: K, canStart: bool) | Drop(key: K)

  /** A run of registry calls: the final registry and the sessions the lookups returned, in order. */
  function Run<K>(r: Registry<K>, ops: seq<Op<K>>): (res: (Registry<K>, seq<Session>))
    ensures |res.1| <= |ops|
    ensures r.created <= res.0.created
    decreases |ops|
  {
    if ops == [] then (r, [])
    else match ops[0]
      case Get(key, canStart) =>
        var (r1, got) := Lookup(r, key, canStart);
        var (r2, rest) := Run(r1, ops[1..]);
        (r2, if got.Ok? then [got.value] + rest else rest)
      case Drop(key) =>
        var (r1, _) := Release(r, key);
        Run(r1, ops[1..])
  }

  /** A retired session stays retired through any run, and no lookup of the run returns it. */
  lemma {:induction false} RetiredStaysRetired<K>(r: Registry<K>, s: Session, ops: seq<Op<K>>)
    requires Retired(r, s)
    ensures Retired(Run(r, ops).0, s)
    ensures s !in Run(r, ops).1
    decreases |ops|
  {
    if ops != [] {
      match ops[0]
      case Get(key, canStart) =>
        var (r1, got) := Lookup(r, key, canStart);
        assert Retired(r1, s);
        assert got.Ok? ==> got.value != s;
        RetiredStaysRetired(r1, s, ops[1..]);
      case Drop(key) =>
        var (r1, _) := Release(r, key);
        assert Retired(r1, s);
        RetiredStaysRetired(r1, s, ops[1..]);
    }
  }

  /** A disposed session is never handed out again: later lookups of its key start a new one. */
  lemma DisposedNeverReturned<K>(r: Registry<K>, key: K, ops: seq<Op<K>>)
    requires WellFormed(r) && key in r.items
    ensures r.items[key] !in Run(Release(r, key).0, ops).1
  {
    RetiredStaysRetired(Release(r, key).0, r.items[key], ops);
  }

  /** Bukkit (`bukkit.impl.MCCoroutineImpl`) and legacy Bukkit (`impl.MCCoroutineImpl`): starting registers the plugin listener. */
  class BukkitMCCoroutine {
    var items: map<Plugin, Session>
    var created: nat
    var log: seq<Step<Plugin>>

    constructor ()
      ensures items == map[] && created == 0 && log == []
    {
      items := map[];
      created := 0;
      log := [];
    }

    function State(): Registry<Plugin>
      reads this
    {
      Registry(items, created)
    }

    /** startCoroutineSession: throws for a disabled plugin; otherwise stores a new session, then registers its listener. */
    method StartCoroutineSession(plugin: Plugin, enabled: bool) returns (thrown: Option<Failure>)
      modifies this
      ensures !enabled ==> thrown == Some(PluginDisabled) && State() == old(State()) && log == old(log)
      ensures enabled ==> thrown == None && State() == Registry(old(items)[plugin := Session(old(created))], old(created) + 1)
      ensures enabled ==> log == old(log) + [Started(plugin, Session(old(created))), ListenerRegistered(plugin)]
    {
      if !enabled {
        return Some(PluginDisabled);
      }
      var session := Session(created);
      items := items[plugin := session];
      created := created + 1;
      log := log + [Started(plugin, session), ListenerRegistered(plugin)];
      thrown := None;
    }

    method GetCoroutineSession(plugin: Plugin, enabled: bool) returns (r: Result<Session, Failure>)
      modifies this
      ensures (State(), r) == Lookup(old(State()), plugin, enabled)
      ensures log == if plugin in old(items) || !enabled then old(log)
                     else old(log) + [Started(plugin, r.value), ListenerRegistered(plugin)]
    {
      if plugin !in items {
        var thrown := StartCoroutineSession(plugin, enabled);
        if thrown.Some? {
          return Err(thrown.value);
        }
      }
      r := Ok(items[plugin]);
    }

    /** disable: disposes the stored session, then removes its key. */
    method Disable(plugin: Plugin)
      modifies this
      ensures State() == Release(old(State()), plugin).0
      ensures log == if plugin in old(items) then old(log) + [Disposed(old(items)[plugin])] else old(log)
    {
      if plugin !in items {
        return;
      }
      var session := items[plugin];
      log := log + [Disposed(session)];
      items := items - {plugin};
    }
  }

  /** BungeeCord: a disabled plugin cannot start a session; no listener is registered. */
  class BungeeCordMCCoroutine {
    var items: map<Plugin, Session>
    var created: nat
    var log: seq<Step<Plugin>>

    constructor ()
      ensures items == map[] && created == 0 && log == []
    {
      items := map[];
      created := 0;
      log := [];
    }

    function State(): Registry<Plugin>
      reads this
    {
      Registry(items, created)
    }

    method GetCoroutineSession(plugin: Plugin, enabled: bool) returns (r: Result<Session, Failure>)
      modifies this
      ensures (State(), r) == Lookup(old(State()), plugin, enabled)
      ensures log == if plugin in old(items) || !enabled then old(log) else old(log) + [Started(plugin, r.value)]
    {
      if plugin !in items {
        if !enabled {
          return Err(PluginDisabled);
        }
        var session := Session(created);
        items := items[plugin := session];
        created := created + 1;
        log := log + [Started(plugin, session)];
      }
      r := Ok(items[plugin]);
    }

    method Disable(plugin: Plugin)
      modifies this
      ensures State() == Release(old(State()), plugin).0
      ensures log == if plugin in old(items) then old(log) + [Disposed(old(items)[plugin])] else old(log)
    {
      if plugin !in items {
        return;
      }
      var session := items[plugin];
      log := log + [Disposed(session)];
      items := items - {plugin};
    }
  }

  /**
   * Fabric (key: the mod's handler object) and Sponge (key: the plugin
   * container): there is no enabled check, so a lookup always succeeds.
   */
  class UncheckedMCCoroutine {
    var items: map<Plugin, Session>
    var created: nat
    var log: seq<Step<Plugin>>

    constructor ()
      ensures items == map[] && created == 0 && log == []
    {
      items := map[];
      created := 0;
      log := [];
    }

    function State(): Registry<Plugin>
      reads this
    {
      Registry(items, created)
    }

    method GetCoroutineSession(handler: Plugin) returns (session: Session)
      modifies this
      ensures (State(), Ok(session)) == Lookup(old(State()), handler, true)
      ensures log == if handler in old(items) then old(log) else old(log) + [Started(handler, session)]
    {
      if handler !in items {
        items := items[handler := Session(created)];
        log := log + [Started(handler, Session(created))];
        created := created + 1;
      }
      session := items[handler];
    }

    method Disable(handler: Plugin)
      modifies this
      ensures State() == Release(old(State()), handler).0
      ensures log == if handler in old(items) then old(log) + [Disposed(old(items)[handler])] else old(log)
    {
      if handler !in items {
        return;
      }
      var session := items[handler];
      log := log + [Disposed(session)];
      items := items - {handler};
    }
  }

  /** The keys of the Minestom registry: extensions and the server share one `HashMap<Any, …>`. */
  datatype Owner = ExtensionKey(extension: nat) | ServerKey(server: nat)

  /** Minestom: separate overloads for extensions and for the server, no enabled check. */
  class MinestomMCCoroutine {
    var items: map<Owner, Session>
    var created: nat
    var log: seq<Step<Owner>>

    constructor ()
      ensures items == map[] && created == 0 && log == []
    {
      items := map[];
      created := 0;
      log := [];
    }

    function State(): Registry<Owner>
      reads this
    {
      Registry(items, created)
    }

    method StartCoroutineSession(owner: Owner)
      modifies this
      ensures State() == Registry(old(items)[owner := Session(old(created))], old(created) + 1)
      ensures log == old(log) + [Started(owner, Session(old(created)))]
    {
      items := items[owner := Session(created)];
      log := log + [Started(owner, Session(created))];
      created := created + 1;
    }

    method GetExtensionSession(extension: nat) returns (session: Session)
      modifies this
      ensures (State(), Ok(session)) == Lookup(old(State()), ExtensionKey(extension), true)
      ensures log == if ExtensionKey(extension) in old(items) then old(log) else old(log) + [Started(ExtensionKey(extension), session)]
    {
      if ExtensionKey(extension) !in items {
        StartCoroutineSession(ExtensionKey(extension));
      }
      session := items[ExtensionKey(extension)];
    }

    method GetServerSession(server: nat) returns (session: Session)
      modifies this
      ensures (State(), Ok(session)) == Lookup(old(State()), ServerKey(server), true)
      ensures log == if ServerKey(server) in old(items) then old(log) else old(log) + [Started(ServerKey(server), session)]
    {
      if ServerKey(server) !in items {
        StartCoroutineSession(ServerKey(server));
      }
      session := items[ServerKey(server)];
    }

    method DisableExtension(extension: nat)
      modifies this
      ensures State() == Release(old(State()), ExtensionKey(extension)).0
      ensures log == if ExtensionKey(extension) in old(items) then old(log) + [Disposed(old(items)[ExtensionKey(extension)])] else old(log)
    {
      if ExtensionKey(extension) !in items {
        return;
      }
      var session := items[ExtensionKey(extension)];
      log := log + [Disposed(session)];
      items := items - {ExtensionKey(extension)};
    }

    method DisableServer(server: nat)
      modifies this
      ensures State() == Release(old(State()), ServerKey(server)).0
      ensures log == if ServerKey(server) in old(items) then old(log) + [Disposed(old(items)[ServerKey(server)])] else old(log)
    {
      if ServerKey(server) !in items {
        return;
      }
      var session := items[ServerKey(server)];
      log := log + [Disposed(session)];
      items := items - {ServerKey(server)};
    }
  }

  /** The server's session and an extension's session never share an entry, even for equal numbers. */
  lemma ServerAndExtensionAreSeparate(r: Registry<Owner>, n: nat)
    requires WellFormed(r)
    ensures var r1 := Lookup(r, ServerKey(n), true).0;
            var r2 := Lookup(r1, ExtensionKey(n), true).0;
            ServerKey(n) in r2.items && ExtensionKey(n) in r2.items &&
            r2.items[ServerKey(n)] != r2.items[ExtensionKey(n)] &&
            r2.items[ServerKey(n)] == Lookup(r, ServerKey(n), true).1.value
  {
  }

  /** The Bukkit test module: no enabled check; `disable` removes the key first and then disposes the removed session. */
  class TestMCCoroutine {
    var items: map<Plugin, Session>
    var created: nat
    var log: seq<Step<Plugin>>

    constructor ()
      ensures items == map[] && created == 0 && log == []
    {
      items := map[];
      created := 0;
      log := [];
    }

    function State(): Registry<Plugin>
      reads this
    {
      Registry(items, created)
    }

    method GetCoroutineSession(plugin: Plugin) returns (session: Session)
      modifies this
      ensures (State(), Ok(session)) == Lookup(old(State()), plugin, true)
      ensures log == if plugin in old(items) then old(log) else old(log) + [Started(plugin, session)]
    {
      if plugin !in items {
        session := Session(created);
        items := items[plugin := session];
        created := created + 1;
        log := log + [Started(plugin, session)];
      }
      session := items[plugin];
    }

    method Disable(plugin: Plugin)
      modifies this
      ensures State() == Release(old(State()), plugin).0
      ensures log == if plugin in old(items) then old(log) + [Disposed(old(items)[plugin])] else old(log)
    {
      if plugin in items {
        var session := items[plugin];
        items := items - {plugin};
        log := log + [Disposed(session)];
      }
    }
  }

  /**
   * Velocity: `setupCoroutineSession` as written. Its early-return guard is
   * `items.contains(plugin)`, and `ConcurrentHashMap.contains` asks whether
   * `plugin` is one of the stored VALUES, which are sessions, never plugin
   * containers: the guard never fires, and a repeated setup stores a new
   * session over the old one without disposing it.
   */
  function SetupAsWritten(r: Registry<Plugin>, plugin: Plugin, enabled: bool): (res: (Registry<Plugin>, Option<Failure>))
    ensures !enabled ==> res == (r, Some(PluginDisabled))
    ensures enabled ==> res.1 == None && res.0 == Registry(r.items[plugin := Session(r.created)], r.created + 1)
  {
    var containsAsValue := false;  // a plugin container never equals a stored session
    if containsAsValue then (r, None)
    else if !enabled then (r, Some(PluginDisabled))
    else (Registry(r.items[plugin := Session(r.created)], r.created + 1), None)
  }

  /** As written, a second setup of a set-up plugin replaces its live session, which is never disposed. */
  lemma SetupAsWrittenReplacesSession(r: Registry<Plugin>, plugin: Plugin)
    requires WellFormed(r) && plugin in r.items
    ensures var r1 := SetupAsWritten(r, plugin, true).0;
            plugin in r1.items && r1.items[plugin] != r.items[plugin] && Retired(r1, r.items[plugin])
  {
  }

  /** setupCoroutineSession with the evidently intended guard `containsKey`. */
  function Setup(r: Registry<Plugin>, plugin: Plugin, enabled: bool): (res: (Registry<Plugin>, Option<Failure>))
    ensures plugin in r.items ==> res == (r, None)
    ensures plugin !in r.items && !enabled ==> res == (r, Some(PluginDisabled))
    ensures plugin !in r.items && enabled ==> res.1 == None && res.0 == Lookup(r, plugin, true).0
    ensures res.1 == None ==> plugin in res.0.items
  {
    if plugin in r.items then (r, None)
    else if !enabled then (r, Some(PluginDisabled))
    else (Registry(r.items[plugin := Session(r.created)], r.created + 1), None)
  }

  /** With the intended guard, setting up twice keeps the first session, whatever the plugin's state. */
  lemma SetupTwiceKeepsSession(r: Registry<Plugin>, plugin: Plugin, enabled: bool, enabledAgain: bool)
    requires Setup(r, plugin, enabled).1 == None
    ensures Setup(Setup(r, plugin, enabled).0, plugin, enabledAgain) == (Setup(r, plugin, enabled).0, None)
  {
  }

  /** getCoroutineSession of Velocity: only set-up plugins have a session. */
  function VelocityLookup(r: Registry<Plugin>, plugin: Plugin): (res: Result<Session, Failure>)
    ensures plugin in r.items <==> res.Ok?
    ensures res.Ok? ==> res.value == Lookup(r, plugin, false).1.value
    ensures res.Err? ==> res.error == NotSetUp
  {
    if plugin !in r.items then Err(NotSetUp) else Ok(r.items[plugin])
  }

  /** After a successful setup, every lookup of that plugin returns the same session. */
  lemma LookupAfterSetup(r: Registry<Plugin>, plugin: Plugin, enabled: bool)
    requires Setup(r, plugin, enabled).1 == None
    ensures VelocityLookup(Setup(r, plugin, enabled).0, plugin).Ok?
    ensures plugin in r.items ==> VelocityLookup(Setup(r, plugin, enabled).0, plugin) == Ok(r.items[plugin])
  {
  }

  /** Velocity's registry, with the corrected setup guard. */
  class VelocityMCCoroutine {
    var items: map<Plugin, Session>
    var created: nat
    var log: seq<Step<Plugin>>

    constructor ()
      ensures items == map[] && created == 0 && log == []
    {
      items := map[];
      created := 0;
      log := [];
    }

    function State(): Registry<Plugin>
      reads this
    {
      Registry(items, created)
    }

    function GetCoroutineSession(plugin: Plugin): (r: Result<Session, Failure>)
      reads this
      ensures r == VelocityLookup(State(), plugin)
    {
      if plugin !in items then Err(NotSetUp) else Ok(items[plugin])
    }

    method SetupCoroutineSession(plugin: Plugin, enabled: bool) returns (thrown: Option<Failure>)
      modifies this
      ensures (State(), thrown) == Setup(old(State()), plugin, enabled)
      ensures log == if plugin in old(items) || !enabled then old(log) else old(log) + [Started(plugin, items[plugin])]
    {
      if plugin in items {
        return None;
      }
      if !enabled {
        return Some(PluginDisabled);
      }
      items := items[plugin := Session(created)];
      log := log + [Started(plugin, Session(created))];
      created := created + 1;
      thrown := None;
    }

    method Disable(plugin: Plugin)
      modifies this
      ensures State() == Release(old(State()), plugin).0
      ensures log == if plugin in old(items) then old(log) + [Disposed(old(items)[plugin])] else old(log)
    {
      if plugin !in items {
        return;
      }
      var session := items[plugin];
      log := log + [Disposed(session)];
      items := items - {plugin};
    }
  }
}
