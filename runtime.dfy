/**
 * Vocabulary shared by the whole model of MCCoroutine: optional values,
 * identities of threads, plugins and runnables, and what a coroutine
 * dispatcher does with a block — run it on the calling thread or hand it to
 * one of the server's schedulers.
 *
 * A server scheduler is modelled as the list of tasks handed to it; a
 * dispatch call is described by the ordered list of effects it performs.
 */
module Runtime {

  datatype Option<T> = None | Some(value: T)

  /** The value of a call, or the exception it throws. */
  datatype Result<T, E> = Ok(value: T) | Err(error: E)

  /** `Thread.currentThread().id`: Java thread ids are positive longs. */
  type ThreadId = nat

  /** Identity of a plugin (or mod, extension, plugin container) object. */
  type Plugin = nat

  /** Identity of a `Runnable` handed to a dispatcher. */
  type Block = nat

  /** The schedulers and executors a dispatcher can hand work to. */
  datatype Scheduler =
    | BukkitMain            // BukkitScheduler.runTask
    | BukkitAsync           // BukkitScheduler.runTaskAsynchronously
    | GlobalRegion          // Folia GlobalRegionScheduler.execute
    | EntityScheduler       // Folia EntityScheduler.run of one entity
    | MinestomTickStart     // SchedulerManager.scheduleNextTick(TICK_START)
    | ServerExecutor        // the Fabric MinecraftServer used as an Executor
    | SpongeAsync           // Sponge async task executor
    | BungeeAsync           // BungeeCord TaskScheduler.runAsync
    | VelocityScheduler     // Velocity Scheduler.buildTask(...).schedule()
    | TestMainPool          // single-thread pool of the test dispatchers
    | TestAsyncPool         // four-thread pool of the test async dispatcher

  /** What is handed to a scheduler. */
  datatype Task =
    | Plain(block: Block)                     // the block itself
    | TimingsRunnable                         // a CoroutineTimings runnable that polls its own queue
    | WithRetired(block: Block, retired: Block) // a Folia entity task and its retired callback

  /** One observable effect of a dispatch call. */
  datatype Effect =
    | RunInline(block: Block)
    | Submit(on: Scheduler, task: Task)

  /** No effect runs a block on the calling thread. */
  predicate NeverInline(effects: seq<Effect>)
  {
    forall i :: 0 <= i < |effects| ==> !effects[i].RunInline?
  }

  /** The number of tasks handed to scheduler `s`. */
  function SubmittedTo(effects: seq<Effect>, s: Scheduler): (n: nat)
    ensures n <= |effects|
  {
    if effects == [] then 0
    else (if effects[0].Submit? && effects[0].on == s then 1 else 0) + SubmittedTo(effects[1..], s)
  }

  /** The number of tasks handed to any scheduler. */
  function Submissions(effects: seq<Effect>): (n: nat)
    ensures n <= |effects|
  {
    if effects == [] then 0
    else (if effects[0].Submit? then 1 else 0) + Submissions(effects[1..])
  }

  /** No element of `s` occurs twice. */
  predicate Distinct<T(==)>(s: seq<T>)
  {
    forall i, j | 0 <= i < j < |s| :: s[i] != s[j]
  }

  /** The first `i` elements of `xs`, as a set. */
  function Prefix<T>(xs: seq<T>, i: nat): set<T>
    requires i <= |xs|
  {
    set j | 0 <= j < i :: xs[j]
  }

  lemma PrefixStep<T>(xs: seq<T>, i: nat)
    requires Distinct(xs) && i < |xs|
    ensures xs[i] !in Prefix(xs, i)
    ensures Prefix(xs, i + 1) == Prefix(xs, i) + {xs[i]}
  {
  }

  lemma PrefixAll<T>(xs: seq<T>)
    ensures Prefix(xs, |xs|) == set x | x in xs
  {
  }

  /** The keys of a hash map in its iteration order, which Java leaves unspecified: every key once, in any order. */
  method Enumerate<T(==)>(s: set<T>) returns (xs: seq<T>)
    ensures (set x | x in xs) == s && Distinct(xs)
  {
    xs := [];
    var rest := s;
    while rest != {}
      invariant rest <= s
      invariant (set x | x in xs) == s - rest && Distinct(xs)
      decreases |rest|
    {
      var x :| x in rest;
      assert x !in xs;
      assert (set y | y in xs + [x]) == (set y | y in xs) + {x};
      xs := xs + [x];
      rest := rest - {x};
    }
  }
}
