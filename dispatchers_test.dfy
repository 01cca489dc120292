/**
 * The dispatchers of the test modules (`mccoroutine-bukkit-test` and
 * `mccoroutine-folia-test`). A single-thread pool stands in for the server
 * thread: its first task records its thread id, and every dispatch submits the
 * block to it. The Bukkit test module adds a four-thread pool for async work.
 * A pool is modelled by the blocks it accepted and its shut-down flag; a
 * submission to a pool already shut down is rejected
 * (RejectedExecutionException).
 */
module TestDispatchers {
  import opened Runtime

  /** An `ExecutorService` of the test modules. */
  class TestPool {
    /** The dispatched blocks the pool accepted, in submission order. */
    var accepted: seq<Block>
    var isShutdown: bool

    constructor ()
      ensures accepted == [] && !isShutdown
    {
      accepted := [];
      isShutdown := false;
    }

    /** `submit`: accepted at the tail unless the pool is shut down. */
    method Submit(block: Block) returns (ok: bool)
      modifies this
      ensures ok <==> !old(isShutdown)
      ensures accepted == if ok then old(accepted) + [block] else old(accepted)
      ensures isShutdown == old(isShutdown)
    {
      ok := !isShutdown;
      if ok {
        accepted := accepted + [block];
      }
    }

    method Shutdown()
      modifies this
      ensures isShutdown && accepted == old(accepted)
    {
      isShutdown := true;
    }
  }

  /** TestMinecraftCoroutineDispatcher of the Bukkit test module. */
  class TestMinecraftCoroutineDispatcher {
    const pool: TestPool
    var threadId: Option<ThreadId>

    /**
     * A fresh single-thread pool that has accepted no dispatched block yet;
     * the task `init` submits ahead of every block is RecordThread, so it is
     * not among `accepted`, and until it runs no thread id is known.
     */
    constructor ()
      ensures threadId == None && fresh(pool) && pool.accepted == [] && !pool.isShutdown
    {
      pool := new TestPool();
      threadId := None;
    }

    /** The first task of the pool, submitted by `init`: it records the pool's thread. */
    method RecordThread(poolThread: ThreadId)
      modifies this`threadId
      ensures threadId == Some(poolThread)
    {
      threadId := Some(poolThread);
    }

    /** Needed off the recorded thread; while none is recorded, always. */
    function IsDispatchNeeded(current: ThreadId): (needed: bool)
      reads this
      ensures needed <==> threadId != Some(current)
      ensures threadId == None ==> needed
    {
      threadId != Some(current)
    }

    method Dispatch(block: Block) returns (ok: bool)
      modifies pool
      ensures ok <==> !old(pool.isShutdown)
      ensures pool.accepted == if ok then old(pool.accepted) + [block] else old(pool.accepted)
      ensures pool.isShutdown == old(pool.isShutdown)
    {
      ok := pool.Submit(block);
    }

    method Dispose()
      modifies pool
      ensures pool.isShutdown && pool.accepted == old(pool.accepted)
    {
      pool.Shutdown();
    }
  }

  /** TestAsyncCoroutineDispatcher of the Bukkit test module. */
  class TestAsyncCoroutineDispatcher {
    const minecraft: TestMinecraftCoroutineDispatcher
    const pool: TestPool

    constructor (minecraft: TestMinecraftCoroutineDispatcher)
      ensures this.minecraft == minecraft && fresh(pool) && pool.accepted == [] && !pool.isShutdown
    {
      this.minecraft := minecraft;
      pool := new TestPool();
    }

    /** Needed exactly on the thread the minecraft test dispatcher recorded. */
    function IsDispatchNeeded(current: ThreadId): (needed: bool)
      reads minecraft
      ensures needed <==> minecraft.threadId == Some(current)
    {
      minecraft.threadId == Some(current)
    }

    method Dispatch(block: Block) returns (ok: bool)
      modifies pool
      ensures ok <==> !old(pool.isShutdown)
      ensures pool.accepted == if ok then old(pool.accepted) + [block] else old(pool.accepted)
      ensures pool.isShutdown == old(pool.isShutdown)
    {
      ok := pool.Submit(block);
    }

    method Dispose()
      modifies pool
      ensures pool.isShutdown && pool.accepted == old(pool.accepted)
    {
      pool.Shutdown();
    }
  }

  /** Once the minecraft test thread is recorded, exactly one of the two test dispatchers needs a dispatch. */
  lemma ExactlyOneNeedsDispatch(async: TestAsyncCoroutineDispatcher, current: ThreadId)
    requires async.minecraft.threadId.Some?
    ensures async.IsDispatchNeeded(current) != async.minecraft.IsDispatchNeeded(current)
  {
  }

  /** TestMainCoroutineDispatcher of the Folia test module. */
  class TestMainCoroutineDispatcher {
    const pool: TestPool
    var threadId: Option<ThreadId>

    /**
     * A fresh single-thread pool that has accepted no dispatched block yet;
     * the task `init` submits ahead of every block is RecordThread, so it is
     * not among `accepted`, and until it runs no thread id is known.
     */
    constructor ()
      ensures threadId == None && fresh(pool) && pool.accepted == [] && !pool.isShutdown
    {
      pool := new TestPool();
      threadId := None;
    }

    method RecordThread(poolThread: ThreadId)
      modifies this`threadId
      ensures threadId == Some(poolThread)
    {
      threadId := Some(poolThread);
    }

    function IsDispatchNeeded(current: ThreadId): (needed: bool)
      reads this
      ensures needed <==> threadId != Some(current)
      ensures threadId == None ==> needed
    {
      threadId != Some(current)
    }

    method Dispatch(block: Block) returns (ok: bool)
      modifies pool
      ensures ok <==> !old(pool.isShutdown)
      ensures pool.accepted == if ok then old(pool.accepted) + [block] else old(pool.accepted)
      ensures pool.isShutdown == old(pool.isShutdown)
    {
      ok := pool.Submit(block);
    }

    method Dispose()
      modifies pool
      ensures pool.isShutdown && pool.accepted == old(pool.accepted)
    {
      pool.Shutdown();
    }
  }
}
