/**
 * The two FIFO queues MCCoroutine drains on server ticks: the Folia
 * `MainDispatcher`, which collects blocks posted from foreign threads and runs
 * them as one batch per tick of its own executor, and `CoroutineTimings`, a
 * runnable that runs one queued block each time the Bukkit scheduler runs it.
 */
module TickQueues {
  import opened Runtime

  /** All lists of `ss`, one after the other. */
  function Concat(ss: seq<seq<Block>>): (r: seq<Block>)
    ensures ss == [] ==> r == []
  {
    if ss == [] then [] else ss[0] + Concat(ss[1..])
  }

  lemma {:induction false} ConcatSnoc(ss: seq<seq<Block>>, last: seq<Block>)
    ensures Concat(ss + [last]) == Concat(ss) + last
  {
    if ss != [] {
      assert (ss + [last])[1..] == ss[1..] + [last];
      ConcatSnoc(ss[1..], last);
    } else {
      assert [last][1..] == [];
    }
  }

  /**
   * Folia's main-thread dispatcher. `threadId` is -1 until the first task of
   * its executor records the executor thread; `ran` lists, in order, every
   * block that has run.
   */
  class MainDispatcher {
    var threadId: int
    var actionQueue: seq<Block>
    var ran: seq<Block>
    var isShutdown: bool

    constructor ()
      ensures threadId == -1 && actionQueue == [] && ran == [] && !isShutdown
    {
      threadId := -1;
      actionQueue := [];
      ran := [];
      isShutdown := false;
    }

    /** The task submitted by `init`: it runs on the executor thread and records that thread. */
    method RecordExecutorThread(executorThread: ThreadId)
      modifies this`threadId
      ensures threadId == executorThread
    {
      threadId := executorThread;
    }

    /**
     * A disabled plugin drops the block; on the executor thread the block
     * runs at once; from any other thread it joins the tail of the queue.
     */
    method Dispatch(enabled: bool, current: ThreadId, block: Block)
      modifies this`actionQueue, this`ran
      ensures !enabled ==> actionQueue == old(actionQueue) && ran == old(ran)
      ensures enabled && current != threadId ==> actionQueue == old(actionQueue) + [block] && ran == old(ran)
      ensures enabled && current == threadId ==> actionQueue == old(actionQueue) && ran == old(ran) + [block]
      ensures enabled && threadId == -1 ==> actionQueue == old(actionQueue) + [block]
    {
      if !enabled {
        return;
      }
      if current != threadId {
        actionQueue := actionQueue + [block];
      } else {
        ran := ran + [block];
      }
    }

    /**
     * One tick of the executor: every queued block is polled into a batch,
     * then the batch runs in FIFO order. While the i-th block of the batch
     * runs, other threads post `arrivals[i]`; those wait for the next tick.
     */
    method Tick(arrivals: seq<seq<Block>>)
      requires !isShutdown
      requires |arrivals| == |actionQueue|
      modifies this`actionQueue, this`ran
      ensures ran == old(ran) + old(actionQueue)
      ensures actionQueue == Concat(arrivals)
    {
      var actions: seq<Block> := [];
      while actionQueue != []
        invariant actions + actionQueue == old(actionQueue)
        invariant ran == old(ran)
      {
        actions := actions + [actionQueue[0]];
        actionQueue := actionQueue[1..];
      }
      var i := 0;
      while i < |actions|
        invariant 0 <= i <= |actions| == |arrivals|
        invariant ran == old(ran) + actions[..i]
        invariant actionQueue == Concat(arrivals[..i])
      {
        ran := ran + [actions[i]];
        ConcatSnoc(arrivals[..i], arrivals[i]);
        assert arrivals[..i + 1] == arrivals[..i] + [arrivals[i]];
        actionQueue := actionQueue + arrivals[i];
        i := i + 1;
      }
      assert actions[..i] == actions;
      assert arrivals[..i] == arrivals;
    }

    /** `close` shuts the executor down; no further tick runs. */
    method Close()
      modifies this`isShutdown
      ensures isShutdown
    {
      isShutdown := true;
    }
  }

  /** The queue of a `CoroutineTimings` runnable and the blocks it has run so far. */
  datatype Timings = Timings(queue: seq<Block>, ran: seq<Block>)

  /** `run()`: poll the head of the queue, if any, and run it. */
  function Poll(t: Timings): (r: Timings)
    ensures r.ran + r.queue == t.ran + t.queue
    ensures t.queue == [] ==> r == t
    ensures t.queue != [] ==> |r.ran| == |t.ran| + 1
  {
    if t.queue == [] then t else Timings(t.queue[1..], t.ran + [t.queue[0]])
  }

  function Min(a: nat, b: nat): nat { if a <= b then a else b }

  /** `n` runs of the timings runnable, one after the other. */
  function Runs(t: Timings, n: nat): (r: Timings)
    ensures r.ran == t.ran + t.queue[..Min(n, |t.queue|)]
    ensures r.queue == t.queue[Min(n, |t.queue|)..]
    decreases n
  {
    if n == 0 then t
    else
      var r := Runs(Poll(t), n - 1);
      assert t.queue != [] ==> t.queue[1..][..Min(n - 1, |t.queue| - 1)] == t.queue[1..Min(n, |t.queue|)];
      r
  }

  /** Bukkit's `CoroutineTimings` runnable: each `run` runs at most one queued block. */
  class CoroutineTimings {
    var queue: seq<Block>
    var ran: seq<Block>

    constructor ()
      ensures queue == [] && ran == []
    {
      queue := [];
      ran := [];
    }

    /** Adds a block at the tail of the queue (`queue.add`). */
    method Add(block: Block)
      modifies this`queue
      ensures queue == old(queue) + [block]
    {
      queue := queue + [block];
    }

    method Run()
      modifies this
      ensures Timings(queue, ran) == Poll(old(Timings(queue, ran)))
    {
      if queue != [] {
        ran := ran + [queue[0]];
        queue := queue[1..];
      }
    }
  }
}
