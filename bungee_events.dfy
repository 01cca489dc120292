/**
 * Suspending listeners on BungeeCord (`BungeeCordEventServiceImpl`): the
 * handler methods of a listener are found and grouped by event class and
 * priority, written into the event bus's `byListenerAndPriority` table, and
 * every event class the listener handles is re-baked into its flat handler
 * array, lower priorities first.
 *
 * Priorities are Java bytes. The listeners of one priority sit in a hash map
 * whose iteration order is unspecified; the model leaves that order open and
 * proves the baked array correct for every order.
 */
module BungeeEvents {
  import opened Runtime

  type EventClass = nat
  type ListenerId = nat
  type MethodId = nat

  /** `@EventHandler(priority = …)` is a Java byte. */
  type Priority = p: int | -128 <= p <= 127

  /** A method of the listener's class as `findHandlers` sees it. */
  datatype ScannedMethod = ScannedMethod(id: MethodId, annotated: bool, paramCount: nat, eventClass: EventClass, priority: Priority)

  /** The handlers one listener has for one event class, by priority. */
  type ByPriority = map<Priority, seq<MethodId>>

  /** The bus's table for one event class: priority, then listener, then its methods. */
  type Table = map<Priority, map<ListenerId, seq<MethodId>>>

  /** One entry of a baked handler array. */
  datatype Baked = Baked(priority: Priority, listener: ListenerId, handler: MethodId)

  /** An annotated method with one parameter (or two: the hidden continuation of a suspend function) is a handler. */
  predicate Collected(m: ScannedMethod)
  {
    m.annotated && (m.paramCount == 1 || m.paramCount == 2)
  }

  /** Every method list of the table is free of repetitions. */
  predicate TableOk(t: Table)
  {
    forall p | p in t :: forall l | l in t[p] :: Distinct(t[p][l])
  }

  /** The entries a baked array for `t` must hold. */
  ghost function Entries(t: Table): set<Baked>
  {
    set p, l, m | p in t && l in t[p] && m in t[p][l] :: Baked(p, l, m)
  }

  predicate Ascending(b: seq<Baked>)
  {
    forall i, j | 0 <= i < j < |b| :: b[i].priority <= b[j].priority
  }

  /** `b` is a correct baking of `t`: every entry exactly once, in ascending priority. */
  ghost predicate BakedFrom(b: seq<Baked>, t: Table)
  {
    Ascending(b) && Distinct(b) && (set x | x in b) == Entries(t)
  }

  /** Each handler among the first `n` scanned methods is listed under its class and priority. */
  ghost predicate Covers(handler: map<EventClass, ByPriority>, methods: seq<ScannedMethod>, n: nat)
    requires n <= |methods|
  {
    forall k | 0 <= k < n && Collected(methods[k]) ::
      methods[k].eventClass in handler && methods[k].priority in handler[methods[k].eventClass] &&
      methods[k].id in handler[methods[k].eventClass][methods[k].priority]
  }

  /** Everything listed comes from a handler among the first `n` scanned methods, under its own class and priority. */
  ghost predicate Traced(handler: map<EventClass, ByPriority>, methods: seq<ScannedMethod>, n: nat)
    requires n <= |methods|
  {
    forall c | c in handler :: forall p | p in handler[c] :: forall id | id in handler[c][p] ::
      exists k | 0 <= k < n :: Collected(methods[k]) && methods[k].id == id &&
        methods[k].eventClass == c && methods[k].priority == p
  }

  /** No class or priority is listed without methods, and no method twice. */
  predicate Tidy(handler: map<EventClass, ByPriority>)
  {
    forall c | c in handler :: handler[c] != map[] && forall p | p in handler[c] :: handler[c][p] != [] && Distinct(handler[c][p])
  }

  /** `handler` groups exactly the handlers among the first `n` scanned methods, without repetitions. */
  ghost predicate Grouped(handler: map<EventClass, ByPriority>, methods: seq<ScannedMethod>, n: nat)
    requires n <= |methods|
  {
    Covers(handler, methods, n) && Traced(handler, methods, n) && Tidy(handler)
  }

  /** `handler` with `m` added under its class and priority (`getOrPut` twice, then `add`). */
  function AddHandler(handler: map<EventClass, ByPriority>, m: ScannedMethod): map<EventClass, ByPriority>
  {
    var prioritiesMap: ByPriority := if m.eventClass in handler then handler[m.eventClass] else map[];
    var priority: seq<MethodId> := if m.priority in prioritiesMap then prioritiesMap[m.priority] else [];
    handler[m.eventClass := prioritiesMap[m.priority := priority + [m.id]]]
  }

  /** What adding `m` does to the list at one class and priority. */
  lemma AddHandlerAt(handler: map<EventClass, ByPriority>, m: ScannedMethod, c: EventClass, p: Priority)
    ensures var h := AddHandler(handler, m);
            (c in h && p in h[c]) <==> ((c in handler && p in handler[c]) || (c == m.eventClass && p == m.priority))
    ensures var h := AddHandler(handler, m);
            c in h && p in h[c] ==>
              h[c][p] == if c == m.eventClass && p == m.priority
                         then (if c in handler && p in handler[c] then handler[c][p] else []) + [m.id]
                         else handler[c][p]
  {
  }

  lemma CoversAdd(handler: map<EventClass, ByPriority>, methods: seq<ScannedMethod>, i: nat)
    requires i < |methods| && Collected(methods[i]) && Covers(handler, methods, i)
    ensures Covers(AddHandler(handler, methods[i]), methods, i + 1)
  {
    var h := AddHandler(handler, methods[i]);
    forall k | 0 <= k < i + 1 && Collected(methods[k])
      ensures methods[k].eventClass in h && methods[k].priority in h[methods[k].eventClass] &&
              methods[k].id in h[methods[k].eventClass][methods[k].priority]
    {
      AddHandlerAt(handler, methods[i], methods[k].eventClass, methods[k].priority);
    }
  }

  lemma TracedAdd(handler: map<EventClass, ByPriority>, methods: seq<ScannedMethod>, i: nat)
    requires i < |methods| && Collected(methods[i]) && Traced(handler, methods, i)
    ensures Traced(AddHandler(handler, methods[i]), methods, i + 1)
  {
    var h := AddHandler(handler, methods[i]);
    forall c | c in h
      ensures forall p | p in h[c] :: forall id | id in h[c][p] ::
        exists k | 0 <= k < i + 1 :: Collected(methods[k]) && methods[k].id == id &&
          methods[k].eventClass == c && methods[k].priority == p
    {
      forall p | p in h[c]
        ensures forall id | id in h[c][p] ::
          exists k | 0 <= k < i + 1 :: Collected(methods[k]) && methods[k].id == id &&
            methods[k].eventClass == c && methods[k].priority == p
      {
        AddHandlerAt(handler, methods[i], c, p);
      }
    }
  }

  lemma TidyAdd(handler: map<EventClass, ByPriority>, methods: seq<ScannedMethod>, i: nat)
    requires forall a, b | 0 <= a < b < |methods| :: methods[a].id != methods[b].id
    requires i < |methods| && Collected(methods[i]) && Traced(handler, methods, i) && Tidy(handler)
    ensures Tidy(AddHandler(handler, methods[i]))
  {
    var m := methods[i];
    var h := AddHandler(handler, m);
    forall c | c in h
      ensures h[c] != map[] && forall p | p in h[c] :: h[c][p] != [] && Distinct(h[c][p])
    {
      forall p | p in h[c]
        ensures h[c][p] != [] && Distinct(h[c][p])
      {
        AddHandlerAt(handler, m, c, p);
        if c == m.eventClass && p == m.priority && c in handler && p in handler[c] {
          assert m.id !in handler[c][p];
        }
      }
      assert m.eventClass == c ==> m.priority in h[c];
    }
  }

  lemma GroupedAdd(handler: map<EventClass, ByPriority>, methods: seq<ScannedMethod>, i: nat)
    requires forall a, b | 0 <= a < b < |methods| :: methods[a].id != methods[b].id
    requires i < |methods| && Collected(methods[i]) && Grouped(handler, methods, i)
    ensures Grouped(AddHandler(handler, methods[i]), methods, i + 1)
  {
    CoversAdd(handler, methods, i);
    TracedAdd(handler, methods, i);
    TidyAdd(handler, methods, i);
  }

  lemma GroupedSkip(handler: map<EventClass, ByPriority>, methods: seq<ScannedMethod>, i: nat)
    requires i < |methods| && !Collected(methods[i]) && Grouped(handler, methods, i)
    ensures Grouped(handler, methods, i + 1)
  {
  }

  /**
   * findHandlers: annotated methods with one or two parameters are grouped by
   * event class and priority; other annotated methods are logged at INFO and
   * skipped. The scanned methods are distinct (they come from a set).
   */
  method FindHandlers(methods: seq<ScannedMethod>) returns (handler: map<EventClass, ByPriority>, logged: seq<MethodId>)
    requires forall i, j | 0 <= i < j < |methods| :: methods[i].id != methods[j].id
    ensures forall i | 0 <= i < |methods| && Collected(methods[i]) ::
      methods[i].eventClass in handler && methods[i].priority in handler[methods[i].eventClass] &&
      methods[i].id in handler[methods[i].eventClass][methods[i].priority]
    ensures forall c | c in handler :: forall p | p in handler[c] :: forall id | id in handler[c][p] ::
      exists i | 0 <= i < |methods| :: Collected(methods[i]) && methods[i].id == id &&
        methods[i].eventClass == c && methods[i].priority == p
    ensures forall c | c in handler :: handler[c] != map[] && forall p | p in handler[c] :: handler[c][p] != [] && Distinct(handler[c][p])
    ensures forall id :: id in logged <==>
      exists i | 0 <= i < |methods| :: methods[i].annotated && !Collected(methods[i]) && methods[i].id == id
  {
    handler := map[];
    logged := [];
    var i := 0;
    while i < |methods|
      invariant 0 <= i <= |methods|
      invariant Grouped(handler, methods, i)
      invariant forall id :: id in logged <==>
        exists k | 0 <= k < i :: methods[k].annotated && !Collected(methods[k]) && methods[k].id == id
    {
      var m := methods[i];
      if m.annotated && !Collected(m) {
        logged := logged + [m.id];
      }
      if Collected(m) {
        GroupedAdd(handler, methods, i);
        handler := AddHandler(handler, m);
      } else {
        GroupedSkip(handler, methods, i);
      }
      i := i + 1;
    }
  }

  /** The listeners of priority `p` in `t`; none when `t` has no such priority (`getOrPut`). */
  function Slot(t: Table, p: Priority): map<ListenerId, seq<MethodId>>
  {
    if p in t then t[p] else map[]
  }

  /** The table of class `c` on the bus; empty when the class has none yet. */
  function TableOf(bus: map<EventClass, Table>, c: EventClass): Table
  {
    if c in bus then bus[c] else map[]
  }

  /** The priorities of `t` after one listener's handlers `found` replace its entries at the priorities in `done`. */
  function MergeSome(t: Table, listener: ListenerId, found: ByPriority, done: set<Priority>): Table
    requires done <= found.Keys
  {
    map p | p in t.Keys + done :: if p in done then Slot(t, p)[listener := found[p]] else t[p]
  }

  /** The priorities of `t` after one listener's handlers `found` replace its entries at those priorities. */
  function MergePriorities(t: Table, listener: ListenerId, found: ByPriority): (r: Table)
    ensures r.Keys == t.Keys + found.Keys
  {
    MergeSome(t, listener, found, found.Keys)
  }

  /** The bus after the classes in `done` took in the listener's handlers. */
  function MergeClasses(bus: map<EventClass, Table>, listener: ListenerId, handler: map<EventClass, ByPriority>, done: set<EventClass>): map<EventClass, Table>
    requires done <= handler.Keys
  {
    map c | c in bus.Keys + done :: if c in done then MergePriorities(TableOf(bus, c), listener, handler[c]) else bus[c]
  }

  /** The whole `byListenerAndPriority` table after registering `listener` with handlers `handler`. */
  function MergeListener(bus: map<EventClass, Table>, listener: ListenerId, handler: map<EventClass, ByPriority>): (r: map<EventClass, Table>)
    ensures r.Keys == bus.Keys + handler.Keys
  {
    MergeClasses(bus, listener, handler, handler.Keys)
  }

  lemma MergeSomeStep(t: Table, listener: ListenerId, found: ByPriority, done: set<Priority>, p: Priority)
    requires done <= found.Keys && p in found && p !in done
    ensures var r := MergeSome(t, listener, found, done);
            r[p := Slot(r, p)[listener := found[p]]] == MergeSome(t, listener, found, done + {p})
  {
  }

  lemma MergeSomeStart(t: Table, listener: ListenerId, found: ByPriority)
    ensures MergeSome(t, listener, found, {}) == t
  {
  }

  lemma MergeClassesStep(bus: map<EventClass, Table>, listener: ListenerId, handler: map<EventClass, ByPriority>, done: set<EventClass>, c: EventClass)
    requires done <= handler.Keys && c in handler && c !in done
    ensures var r := MergeClasses(bus, listener, handler, done);
            r[c := MergePriorities(TableOf(r, c), listener, handler[c])] == MergeClasses(bus, listener, handler, done + {c})
  {
  }

  lemma MergeClassesStart(bus: map<EventClass, Table>, listener: ListenerId, handler: map<EventClass, ByPriority>)
    ensures MergeClasses(bus, listener, handler, {}) == bus
  {
  }

  /** Merging distinct method lists keeps every list of the table distinct. */
  lemma MergeKeepsTableOk(t: Table, listener: ListenerId, found: ByPriority)
    requires TableOk(t)
    requires forall p | p in found :: Distinct(found[p])
    ensures TableOk(MergePriorities(t, listener, found))
  {
  }

  /** Registering a listener touches no other listener's methods, and rewrites its own only where it has handlers. */
  lemma RegisterKeepsOtherEntries(bus: map<EventClass, Table>, listener: ListenerId, handler: map<EventClass, ByPriority>,
                                  c: EventClass, p: Priority, l: ListenerId)
    requires c in bus && p in bus[c] && l in bus[c][p]
    requires l != listener || c !in handler || p !in handler[c]
    ensures var r := MergeListener(bus, listener, handler);
            c in r && p in r[c] && l in r[c][p] && r[c][p][l] == bus[c][p][l]
  {
  }

  /** After registering, the listener's methods at each of its (class, priority) are exactly the ones found. */
  lemma RegisterWritesFoundHandlers(bus: map<EventClass, Table>, listener: ListenerId, handler: map<EventClass, ByPriority>,
                                    c: EventClass, p: Priority)
    requires c in handler && p in handler[c]
    ensures var r := MergeListener(bus, listener, handler);
            c in r && p in r[c] && listener in r[c][p] && r[c][p][listener] == handler[c][p]
  {
  }

  /** Appends the entries of one listener at one priority (the inner `for (method in value1)`). */
  method AppendListener(list: seq<Baked>, value: Priority, l: ListenerId, ms: seq<MethodId>) returns (r: seq<Baked>)
    requires Distinct(ms) && Distinct(list)
    requires forall x | x in list :: x.priority < value || (x.priority == value && x.listener != l)
    requires Ascending(list)
    ensures Distinct(r) && Ascending(r)
    ensures (set x | x in r) == (set x | x in list) + (set m | m in ms :: Baked(value, l, m))
    ensures forall x | x in r :: x in list || (x.priority == value && x.listener == l)
  {
    r := list;
    var k := 0;
    while k < |ms|
      invariant 0 <= k <= |ms|
      invariant Distinct(r) && Ascending(r)
      invariant (set x | x in r) == (set x | x in list) + (set j | 0 <= j < k :: Baked(value, l, ms[j]))
      invariant forall x | x in r :: x in list || (x.priority == value && x.listener == l && exists j | 0 <= j < k :: x.handler == ms[j])
    {
      r := r + [Baked(value, l, ms[k])];
      k := k + 1;
    }
    assert (set j | 0 <= j < k :: Baked(value, l, ms[j])) == (set m | m in ms :: Baked(value, l, m));
  }

  /** The entries of `t` below priority `bound`. */
  ghost function EntriesBelow(t: Table, bound: int): set<Baked>
  {
    set x | x in Entries(t) && x.priority < bound
  }

  /** Appends every listener of one priority, in the hash map's (unspecified) order. */
  method AppendPriority(list: seq<Baked>, t: Table, value: Priority) returns (r: seq<Baked>)
    requires TableOk(t) && value in t
    requires Distinct(list) && Ascending(list)
    requires forall x | x in list :: x.priority < value
    requires (set x | x in list) == EntriesBelow(t, value)
    ensures Distinct(r) && Ascending(r)
    ensures forall x | x in r :: x.priority <= value
    ensures (set x | x in r) == EntriesBelow(t, value + 1)
  {
    var byListener := t[value];
    var listeners := Enumerate(byListener.Keys);
    r := list;
    var i := 0;
    while i < |listeners|
      invariant 0 <= i <= |listeners|
      invariant Distinct(r) && Ascending(r)
      invariant forall x | x in r :: x.priority < value || (x.priority == value && x.listener in Prefix(listeners, i))
      invariant (set x | x in r) == EntriesBelow(t, value) + (set l, m | l in Prefix(listeners, i) && m in byListener[l] :: Baked(value, l, m))
    {
      var l := listeners[i];
      PrefixStep(listeners, i);
      r := AppendListener(r, value, l, byListener[l]);
      assert (set l', m | l' in Prefix(listeners, i + 1) && m in byListener[l'] :: Baked(value, l', m)) ==
             (set l', m | l' in Prefix(listeners, i) && m in byListener[l'] :: Baked(value, l', m)) +
             (set m | m in byListener[l] :: Baked(value, l, m));
      i := i + 1;
    }
    PrefixAll(listeners);
    assert (set l, m | l in byListener.Keys && m in byListener[l] :: Baked(value, l, m)) ==
           (set x | x in Entries(t) && x.priority == value);
    assert EntriesBelow(t, value + 1) == EntriesBelow(t, value) + (set x | x in Entries(t) && x.priority == value);
  }

  /** bakeHandlers' do-while over every byte from -128 up to 127. */
  method Bake(t: Table) returns (list: seq<Baked>)
    requires TableOk(t)
    ensures BakedFrom(list, t)
  {
    list := [];
    var value: int := -128;
    while value <= 127
      invariant -128 <= value <= 128
      invariant Distinct(list) && Ascending(list)
      invariant forall x | x in list :: x.priority < value
      invariant (set x | x in list) == EntriesBelow(t, value)
    {
      if value in t {
        list := AppendPriority(list, t, value);
      } else {
        assert EntriesBelow(t, value + 1) == EntriesBelow(t, value);
      }
      value := value + 1;
    }
    assert EntriesBelow(t, value) == Entries(t);
  }

  /** The part of BungeeCord's EventBus and PluginManager that registration writes. */
  class EventBus {
    var byListenerAndPriority: map<EventClass, Table>
    var byEventBaked: map<EventClass, seq<Baked>>
    var listenersByPlugin: seq<(Plugin, ListenerId)>

    constructor ()
      ensures byListenerAndPriority == map[] && byEventBaked == map[] && listenersByPlugin == []
    {
      byListenerAndPriority := map[];
      byEventBaked := map[];
      listenersByPlugin := [];
    }

    ghost predicate Valid()
      reads this
    {
      forall c | c in byListenerAndPriority :: TableOk(byListenerAndPriority[c])
    }

    /** bakeHandlers: the class's table baked in ascending priority, or its baked array removed when it has no table. */
    method BakeHandlers(eventClass: EventClass)
      requires Valid()
      modifies this`byEventBaked
      ensures eventClass !in byListenerAndPriority ==> byEventBaked == old(byEventBaked) - {eventClass}
      ensures eventClass in byListenerAndPriority ==>
        eventClass in byEventBaked && BakedFrom(byEventBaked[eventClass], byListenerAndPriority[eventClass]) &&
        byEventBaked == old(byEventBaked)[eventClass := byEventBaked[eventClass]]
    {
      if eventClass in byListenerAndPriority {
        var list := Bake(byListenerAndPriority[eventClass]);
        byEventBaked := byEventBaked[eventClass := list];
      } else {
        byEventBaked := byEventBaked - {eventClass};
      }
    }

    /** The inner loop of registerSuspendListener: one class's table gains the listener's handlers, priority by priority. */
    static method MergeInto(t: Table, listener: ListenerId, found: ByPriority) returns (r: Table)
      ensures r == MergePriorities(t, listener, found)
    {
      var priorities := Enumerate(found.Keys);
      MergeSomeStart(t, listener, found);
      r := t;
      var i := 0;
      while i < |priorities|
        invariant 0 <= i <= |priorities|
        invariant Prefix(priorities, i) <= found.Keys
        invariant r == MergeSome(t, listener, found, Prefix(priorities, i))
      {
        var p := priorities[i];
        PrefixStep(priorities, i);
        MergeSomeStep(t, listener, found, Prefix(priorities, i), p);
        var currentPriorityMap := Slot(r, p);
        r := r[p := currentPriorityMap[listener := found[p]]];
        i := i + 1;
      }
      PrefixAll(priorities);
    }

    /** One pass of registerSuspendListener's outer loop: class `key` takes in the listener's handlers and is re-baked. */
    method RegisterClass(key: EventClass, listener: ListenerId, found: ByPriority)
      requires Valid()
      requires forall p | p in found :: Distinct(found[p])
      modifies this`byListenerAndPriority, this`byEventBaked
      ensures Valid()
      ensures byListenerAndPriority == old(byListenerAndPriority)[key := MergePriorities(TableOf(old(byListenerAndPriority), key), listener, found)]
      ensures key in byEventBaked && BakedFrom(byEventBaked[key], byListenerAndPriority[key])
      ensures byEventBaked == old(byEventBaked)[key := byEventBaked[key]]
    {
      var prioritiesMap := TableOf(byListenerAndPriority, key);
      MergeKeepsTableOk(prioritiesMap, listener, found);
      var merged := MergeInto(prioritiesMap, listener, found);
      byListenerAndPriority := byListenerAndPriority[key := merged];
      BakeHandlers(key);
    }

    /** The outer loop of registerSuspendListener, over the classes the listener handles in hash-map order. */
    method RegisterClasses(listener: ListenerId, handler: map<EventClass, ByPriority>)
      requires Valid()
      requires Tidy(handler)
      modifies this`byListenerAndPriority, this`byEventBaked
      ensures Valid()
      ensures byListenerAndPriority == MergeListener(old(byListenerAndPriority), listener, handler)
      ensures forall c | c in handler :: c in byEventBaked && BakedFrom(byEventBaked[c], byListenerAndPriority[c])
      ensures forall c | c in old(byEventBaked) && c !in handler :: c in byEventBaked && byEventBaked[c] == old(byEventBaked)[c]
      ensures forall c | c in byEventBaked && c !in handler :: c in old(byEventBaked)
    {
      var start := byListenerAndPriority;
      var classes := Enumerate(handler.Keys);
      MergeClassesStart(start, listener, handler);
      var i := 0;
      while i < |classes|
        invariant 0 <= i <= |classes|
        invariant Prefix(classes, i) <= handler.Keys
        invariant byListenerAndPriority == MergeClasses(start, listener, handler, Prefix(classes, i))
        invariant Valid()
        invariant forall c | c in Prefix(classes, i) :: c in byEventBaked && BakedFrom(byEventBaked[c], byListenerAndPriority[c])
        invariant forall c | c in old(byEventBaked) && c !in Prefix(classes, i) :: c in byEventBaked && byEventBaked[c] == old(byEventBaked)[c]
        invariant forall c | c in byEventBaked && c !in Prefix(classes, i) :: c in old(byEventBaked)
      {
        var key := classes[i];
        PrefixStep(classes, i);
        MergeClassesStep(start, listener, handler, Prefix(classes, i), key);
        RegisterClass(key, listener, handler[key]);
        i := i + 1;
      }
      PrefixAll(classes);
    }

    /**
     * registerSuspendListener: the handlers found on the listener are written
     * into the table of each event class they handle, each such class is
     * re-baked, and the listener is recorded under its plugin. The found
     * handlers are returned so that the contract can speak of them.
     */
    method RegisterSuspendListener(plugin: Plugin, listener: ListenerId, methods: seq<ScannedMethod>)
      returns (handler: map<EventClass, ByPriority>)
      requires Valid()
      requires forall i, j | 0 <= i < j < |methods| :: methods[i].id != methods[j].id
      modifies this
      ensures Valid()
      ensures byListenerAndPriority == MergeListener(old(byListenerAndPriority), listener, handler)
      ensures forall c | c in handler :: c in byEventBaked && BakedFrom(byEventBaked[c], byListenerAndPriority[c])
      ensures forall c | c in old(byEventBaked) && c !in handler :: c in byEventBaked && byEventBaked[c] == old(byEventBaked)[c]
      ensures forall c | c in byEventBaked && c !in handler :: c in old(byEventBaked)
      ensures listenersByPlugin == old(listenersByPlugin) + [(plugin, listener)]
      ensures forall i | 0 <= i < |methods| && Collected(methods[i]) ::
        methods[i].eventClass in handler && methods[i].priority in handler[methods[i].eventClass] &&
        methods[i].id in handler[methods[i].eventClass][methods[i].priority]
      ensures forall c | c in handler :: forall p | p in handler[c] :: forall id | id in handler[c][p] ::
        exists i | 0 <= i < |methods| :: Collected(methods[i]) && methods[i].id == id &&
          methods[i].eventClass == c && methods[i].priority == p
      ensures forall c | c in handler :: handler[c] != map[] && forall p | p in handler[c] :: handler[c][p] != [] && Distinct(handler[c][p])
    {
      var logged;
      handler, logged := FindHandlers(methods);
      RegisterClasses(listener, handler);
      listenersByPlugin := listenersByPlugin + [(plugin, listener)];
    }
  }
}
