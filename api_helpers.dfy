/**
 * The small helpers of the public `MCCoroutine` API files of each platform:
 * the guarded `launch`, the tick-to-millisecond conversion, Folia's region
 * lookup by block coordinates, the default execution type of suspending
 * events, Fabric's suspending commands and its exception event, and
 * Minestom's resolution of a collection of `Acquirable`s.
 */
module ApiHelpers {
  import opened Runtime
  import Sessions
  import EventFanOut

  /** Kotlin's `Int`. */
  type Int32 = x: int | -0x8000_0000 <= x < 0x8000_0000

  /** Kotlin's `Long` range. */
  predicate InLong(x: int) {
    -0x8000_0000_0000_0000 <= x < 0x8000_0000_0000_0000
  }

  /**
   * `launch` of every platform's API: a plugin (extension, mod, container)
   * whose scope is no longer active gets a fresh job and nothing starts;
   * otherwise the block joins the scope's coroutines as the last one.
   */
  function Launch(scopeActive: bool, started: seq<Sessions.Coroutine>, c: Sessions.Coroutine): (r: (seq<Sessions.Coroutine>, Sessions.Job))
    ensures !scopeActive ==> r.0 == started && r.1 == Sessions.Inert
    ensures scopeActive ==> |r.0| == |started| + 1 && r.0[..|started|] == started && r.1 == Sessions.Running(|started|) && r.0[r.1.index] == c
  {
    Sessions.Admit(!scopeActive, started, c)
  }

  /** Launches made after the scope stopped being active leave the scope exactly as they found it. */
  lemma {:induction false} LaunchesOnInactiveScopeStartNothing(started: seq<Sessions.Coroutine>, cs: seq<Sessions.Coroutine>)
    ensures LaunchAll(false, started, cs).0 == started
    ensures forall j | j in LaunchAll(false, started, cs).1 :: j == Sessions.Inert
    decreases |cs|
  {
    if cs != [] {
      LaunchesOnInactiveScopeStartNothing(started, cs[1..]);
    }
  }

  /** Several `launch` calls in a row on a scope whose activity does not change. */
  function LaunchAll(scopeActive: bool, started: seq<Sessions.Coroutine>, cs: seq<Sessions.Coroutine>): (r: (seq<Sessions.Coroutine>, seq<Sessions.Job>))
    ensures |r.1| == |cs|
    decreases |cs|
  {
    if cs == [] then (started, [])
    else
      var (s1, j) := Launch(scopeActive, started, cs[0]);
      var (s2, js) := LaunchAll(scopeActive, s1, cs[1..]);
      (s2, [j] + js)
  }

  /**
   * `Int.ticks`: a count of server ticks as a delay in milliseconds. The
   * delay ends half a tick before the n-th 50 ms tick boundary, and the
   * `Long` product never overflows.
   */
  function Ticks(n: Int32): (ms: int)
    ensures 50 * (n - 1) < ms < 50 * n
    ensures (ms + 25) % 50 == 0
    ensures InLong(ms)
  {
    n * 50 - 25
  }

  /** One tick more is exactly 50 ms more, and one tick is 25 ms. */
  lemma TicksStep(n: Int32)
    requires n < 0x7fff_ffff
    ensures Ticks(n + 1) == Ticks(n) + 50
    ensures Ticks(1) == 25 && Ticks(0) == -25
  {
  }

  /**
   * `shr 4` of a block coordinate: the coordinate of its chunk, rounding
   * toward negative infinity as an arithmetic shift does.
   */
  function ChunkCoordinate(block: Int32): (c: int)
    ensures 16 * c <= block < 16 * c + 16
    ensures -0x800_0000 <= c < 0x800_0000
  {
    block / 16
  }

  /** Two blocks lie in the same chunk exactly when they share the 16-block column that starts at a multiple of 16. */
  lemma SameChunk(a: Int32, b: Int32)
    ensures ChunkCoordinate(a) == ChunkCoordinate(b) <==> (exists k | -0x800_0000 <= k < 0x800_0000 :: 16 * k <= a < 16 * k + 16 && 16 * k <= b < 16 * k + 16)
  {
    var ca, cb := ChunkCoordinate(a), ChunkCoordinate(b);
    if ca == cb {
      assert 16 * ca <= a < 16 * ca + 16 && 16 * ca <= b < 16 * ca + 16;
    } else {
      forall k | -0x800_0000 <= k < 0x800_0000
        ensures !(16 * k <= a < 16 * k + 16 && 16 * k <= b < 16 * k + 16)
      {
        if 16 * k <= a < 16 * k + 16 && 16 * k <= b < 16 * k + 16 {
          ChunkUnique(a, k);
          ChunkUnique(b, k);
        }
      }
    }
  }

  lemma ChunkUnique(x: Int32, k: int)
    requires 16 * k <= x < 16 * k + 16
    ensures ChunkCoordinate(x) == k
  {
  }

  /** Folia's `regionDispatcher(location)`: the region dispatcher of the chunk that holds the block. */
  function RegionDispatcherAt(foliaLoaded: bool, world: nat, blockX: Int32, blockZ: Int32): (d: Sessions.Dispatcher)
    ensures foliaLoaded ==>
      d.RegionDispatcher? && d.world == world &&
      16 * d.chunkX <= blockX < 16 * d.chunkX + 16 && 16 * d.chunkZ <= blockZ < 16 * d.chunkZ + 16
    ensures !foliaLoaded ==> d == Sessions.BukkitMinecraftDispatcher
  {
    Sessions.RegionDispatcherOf(foliaLoaded, world, ChunkCoordinate(blockX), ChunkCoordinate(blockZ))
  }

  /**
   * `callSuspendingEvent(event, plugin)` without an execution type (Bukkit
   * and Folia): the Concurrent walk, one job per enabled suspending listener
   * that did not throw.
   */
  method CallSuspendingEventDefault(p: EventFanOut.Platform, event: EventFanOut.Event, holdsLock: bool, isPrimary: bool,
                                    scopeOpen: bool, regs: seq<EventFanOut.Registration>)
    returns (r: Result<seq<EventFanOut.Job>, EventFanOut.Violation>)
    ensures EventFanOut.CheckThread(p, event, holdsLock, isPrimary).Some? ==>
      r == Err(EventFanOut.CheckThread(p, event, holdsLock, isPrimary).value)
    ensures EventFanOut.CheckThread(p, event, holdsLock, isPrimary) == None ==>
      r.Ok? && r.value == EventFanOut.JobsOf(EventFanOut.Visits(p, event, regs)) &&
      |r.value| == EventFanOut.CountSuspending(regs)
  {
    var visits;
    r, visits := EventFanOut.FireSuspendingEvent(p, EventFanOut.Concurrent, event, holdsLock, isPrimary, scopeOpen, regs);
    if r.Ok? {
      EventFanOut.OneJobPerSuspendingListener(p, event, regs);
    }
  }

  /** Brigadier's `Command.SINGLE_SUCCESS`. */
  const SingleSuccess := 1

  /**
   * `executesSuspend` (all three Fabric overloads): the command's own result
   * is returned only when the launched coroutine ran to its end before
   * `launch` returned (it was admitted and never suspended); otherwise the
   * caller sees SINGLE_SUCCESS.
   */
  method ExecutesSuspend(scopeActive: bool, commandSuspends: bool, commandResult: int) returns (success: int)
    ensures scopeActive && !commandSuspends ==> success == commandResult
    ensures !scopeActive || commandSuspends ==> success == SingleSuccess
  {
    success := SingleSuccess;
    if scopeActive && !commandSuspends {
      success := commandResult;
    }
  }

  /** One call of a listener of Fabric's `MCCoroutineExceptionEvent`. */
  datatype Invocation = Invocation(listener: nat, throwable: nat, entryPoint: nat)

  /** Whether some listener answered true. */
  function AnyCancels(answers: seq<bool>): (b: bool)
    ensures b <==> exists i | 0 <= i < |answers| :: answers[i]
    decreases |answers|
  {
    if answers == [] then false
    else AnyCancels(answers[..|answers| - 1]) || answers[|answers| - 1]
  }

  /**
   * The array-backed invoker of `MCCoroutineExceptionEvent`: every listener
   * is asked, in registration order and with the same throwable and entry
   * point, and the event counts as cancelled when any one of them says so.
   * `answers[i]` is what listener i returns.
   */
  method OnMCCoroutineException(answers: seq<bool>, throwable: nat, entryPoint: nat) returns (cancel: bool, calls: seq<Invocation>)
    ensures cancel <==> exists i | 0 <= i < |answers| :: answers[i]
    ensures cancel == AnyCancels(answers)
    ensures |calls| == |answers|
    ensures forall k | 0 <= k < |calls| :: calls[k] == Invocation(k, throwable, entryPoint)
  {
    cancel := false;
    calls := [];
    for i := 0 to |answers|
      invariant cancel == AnyCancels(answers[..i])
      invariant |calls| == i
      invariant forall k | 0 <= k < i :: calls[k] == Invocation(k, throwable, entryPoint)
    {
      calls := calls + [Invocation(i, throwable, entryPoint)];
      assert answers[..i + 1][..i] == answers[..i];
      if answers[i] {
        cancel := true;
      }
    }
    assert answers[..|answers|] == answers;
  }

  /**
   * `Collection<Acquirable<T>>.asyncSuspend`: each element handed out by
   * `acquireSync` (in `delivered`, in the order it hands them out) is added
   * to a list, and `f` is applied once to the whole list.
   */
  method AsyncSuspendAll<T, R>(delivered: seq<T>, f: seq<T> -> R) returns (resolved: seq<T>, result: R)
    ensures resolved == delivered
    ensures result == f(delivered)
  {
    resolved := [];
    for i := 0 to |delivered|
      invariant resolved == delivered[..i]
    {
      resolved := resolved + [delivered[i]];
    }
    assert delivered[..|delivered|] == delivered;
    result := f(resolved);
  }

  /**
   * `Acquirable<T>.asyncSuspend`: `f` is applied to the element `sync`
   * hands out, its possibly null result standing as an Option. The `!!` on
   * the result throws when `sync` never calls back and when `f` returned
   * null.
   */
  function AsyncSuspendOne<T, R>(delivered: Option<T>, f: T -> Option<R>): (r: Result<R, ()>)
    ensures r.Ok? <==> delivered.Some? && f(delivered.value).Some?
    ensures r.Ok? ==> r.value == f(delivered.value).value
  {
    match delivered
    case None => Err(())
    case Some(element) =>
      match f(element)
      case None => Err(())
      case Some(value) => Ok(value)
  }
}
