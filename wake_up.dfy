/**
 * The wake-up block services of the Bukkit platform. While the server
 * heartbeat hack is enabled, every `ensureWakeup` submits one heartbeat task
 * to a lazily created single-thread executor; once the hack is switched off,
 * the next call shuts that executor down and forgets it. The current service
 * (package `bukkit.service`) captures the primary thread itself; the legacy
 * one (package `service`) waits for a dispatcher to set it.
 */
module WakeUp {
  import opened Runtime

  /** An executor made by `Executors.newFixedThreadPool(1)`: creation number, shut-down flag, tasks accepted. */
  datatype Pool = Pool(id: nat, isShutdown: bool, tasks: nat)

  /**
   * The fields of a wake-up service. `created` counts the executors created
   * so far and `retired` lists, in order, those shut down and dropped.
   */
  datatype Service = Service(
    heartBeat: bool,
    primaryThread: Option<ThreadId>,
    threadSupport: Option<Pool>,
    created: nat,
    retired: seq<Pool>)

  /** What one `ensureWakeup` call did with the heartbeat task. */
  datatype Outcome = Idle | Submitted | Rejected

  /** The live executor, if any, is the most recently created one. */
  predicate Valid(s: Service)
  {
    s.threadSupport.Some? ==> s.threadSupport.value.id < s.created
  }

  /** Heartbeat off: shut the executor down, if there is one, and clear it. */
  function Retire(s: Service): (r: Service)
    requires Valid(s)
    ensures Valid(r) && r.threadSupport == None
    ensures r.heartBeat == s.heartBeat && r.primaryThread == s.primaryThread && r.created == s.created
    ensures s.threadSupport == None ==> r == s
    ensures s.threadSupport.Some? ==> r.retired == s.retired + [s.threadSupport.value.(isShutdown := true)]
  {
    match s.threadSupport
    case None => s
    case Some(p) => s.(threadSupport := None, retired := s.retired + [p.(isShutdown := true)])
  }

  /**
   * Creates the executor if there is none, then submits one heartbeat task
   * to it; an executor already shut down rejects the task
   * (RejectedExecutionException).
   */
  function SubmitHeartbeat(s: Service): (r: (Service, Outcome))
    requires Valid(s)
    ensures Valid(r.0) && r.0.threadSupport.Some? && r.1 != Idle
    ensures r.0.heartBeat == s.heartBeat && r.0.primaryThread == s.primaryThread && r.0.retired == s.retired
    ensures s.threadSupport == None ==> r.0.created == s.created + 1 && r.0.threadSupport == Some(Pool(s.created, false, 1))
    ensures s.threadSupport.Some? ==> r.0.created == s.created && r.0.threadSupport.value.id == s.threadSupport.value.id
    ensures r.1 == Submitted <==> !r.0.threadSupport.value.isShutdown
    ensures r.1 == Submitted ==>
      r.0.threadSupport.value.tasks == (if s.threadSupport == None then 0 else s.threadSupport.value.tasks) + 1
  {
    var pool := if s.threadSupport == None then Pool(s.created, false, 0) else s.threadSupport.value;
    var created := if s.threadSupport == None then s.created + 1 else s.created;
    if pool.isShutdown then
      (s.(threadSupport := Some(pool), created := created), Rejected)
    else
      (s.(threadSupport := Some(pool.(tasks := pool.tasks + 1)), created := created), Submitted)
  }

  /** `ensureWakeup` of the current service, called on thread `current`. */
  function Ensure(s: Service, isPrimary: bool, current: ThreadId): (r: (Service, Outcome))
    requires Valid(s)
    ensures Valid(r.0) && r.0.heartBeat == s.heartBeat
    ensures !s.heartBeat ==> r.0 == Retire(s) && r.1 == Idle
    ensures r.0.primaryThread ==
      if s.heartBeat && s.primaryThread == None && isPrimary then Some(current) else s.primaryThread
    ensures s.heartBeat && r.0.primaryThread == None ==> r == (s, Idle)
    ensures r.1 != Idle <==> s.heartBeat && r.0.primaryThread.Some?
    ensures s.heartBeat && s.threadSupport.Some? ==>
      r.0.created == s.created && r.0.threadSupport.Some? && r.0.threadSupport.value.id == s.threadSupport.value.id
  {
    if !s.heartBeat then (Retire(s), Idle)
    else
      var captured := if s.primaryThread == None && isPrimary then s.(primaryThread := Some(current)) else s;
      if captured.primaryThread == None then (captured, Idle) else SubmitHeartbeat(captured)
  }

  /** `ensureWakeup` of the legacy service: it never records the primary thread itself. */
  function EnsureLegacy(s: Service): (r: (Service, Outcome))
    requires Valid(s)
    ensures Valid(r.0) && r.0.heartBeat == s.heartBeat && r.0.primaryThread == s.primaryThread
    ensures !s.heartBeat ==> r.0 == Retire(s) && r.1 == Idle
    ensures s.heartBeat && s.primaryThread == None ==> r == (s, Idle)
    ensures r.1 != Idle <==> s.heartBeat && s.primaryThread.Some?
    ensures s.heartBeat && s.threadSupport.Some? ==> r.0.created == s.created
  {
    if !s.heartBeat then (Retire(s), Idle)
    else if s.primaryThread == None then (s, Idle)
    else SubmitHeartbeat(s)
  }

  /** `dispose`: shuts the executor down but keeps the reference. */
  function AfterDispose(s: Service): (r: Service)
    requires Valid(s)
    ensures Valid(r) && r.created == s.created && r.retired == s.retired
    ensures r.heartBeat == s.heartBeat && r.primaryThread == s.primaryThread
    ensures s.threadSupport.Some? ==> r.threadSupport == Some(s.threadSupport.value.(isShutdown := true))
    ensures s.threadSupport == None ==> r == s
  {
    match s.threadSupport
    case None => s
    case Some(p) => s.(threadSupport := Some(p.(isShutdown := true)))
  }

  /** A run of `ensureWakeup` calls, each given whether it ran on the primary thread and on which thread. */
  function EnsureAll(s: Service, calls: seq<(bool, ThreadId)>): (r: Service)
    requires Valid(s)
    ensures Valid(r) && r.heartBeat == s.heartBeat
    decreases |calls|
  {
    if calls == [] then s else EnsureAll(Ensure(s, calls[0].0, calls[0].1).0, calls[1..])
  }

  /**
   * While the heartbeat hack stays on, a run of calls creates at most one
   * executor, and none at all when one already exists.
   */
  lemma {:induction false} AtMostOneExecutor(s: Service, calls: seq<(bool, ThreadId)>)
    requires Valid(s) && s.heartBeat
    ensures EnsureAll(s, calls).created <= s.created + 1
    ensures s.threadSupport.Some? ==> EnsureAll(s, calls).created == s.created
    ensures s.threadSupport.Some? ==>
      EnsureAll(s, calls).threadSupport.Some? && EnsureAll(s, calls).threadSupport.value.id == s.threadSupport.value.id
    decreases |calls|
  {
    if calls != [] {
      var next := Ensure(s, calls[0].0, calls[0].1).0;
      assert next.threadSupport.Some? ==> next.threadSupport.value.id == if s.threadSupport.Some? then s.threadSupport.value.id else s.created;
      AtMostOneExecutor(next, calls[1..]);
    }
  }

  /** Once the primary thread is known it never changes, whatever the calls. */
  lemma {:induction false} PrimaryThreadIsStable(s: Service, calls: seq<(bool, ThreadId)>)
    requires Valid(s) && s.primaryThread.Some?
    ensures EnsureAll(s, calls).primaryThread == s.primaryThread
    decreases |calls|
  {
    if calls != [] {
      PrimaryThreadIsStable(Ensure(s, calls[0].0, calls[0].1).0, calls[1..]);
    }
  }

  /** The wake-up service of package `bukkit.service`. */
  class WakeUpBlockService {
    var heartBeat: bool
    var primaryThread: Option<ThreadId>
    var threadSupport: Option<Pool>
    var created: nat
    var retired: seq<Pool>

    function Snapshot(): Service
      reads this
    {
      Service(heartBeat, primaryThread, threadSupport, created, retired)
    }

    /** The heartbeat hack starts switched off. */
    constructor ()
      ensures Snapshot() == Service(false, None, None, 0, []) && Valid(Snapshot())
    {
      heartBeat := false;
      primaryThread := None;
      threadSupport := None;
      created := 0;
      retired := [];
    }

    method SetHeartBeat(enabled: bool)
      modifies this`heartBeat
      ensures Snapshot() == old(Snapshot()).(heartBeat := enabled)
    {
      heartBeat := enabled;
    }

    method EnsureWakeup(isPrimary: bool, current: ThreadId) returns (outcome: Outcome)
      requires Valid(Snapshot())
      modifies this
      ensures (Snapshot(), outcome) == Ensure(old(Snapshot()), isPrimary, current)
    {
      if !heartBeat {
        if threadSupport.Some? {
          retired := retired + [threadSupport.value.(isShutdown := true)];
          threadSupport := None;
        }
        return Idle;
      }
      if primaryThread == None && isPrimary {
        primaryThread := Some(current);
      }
      if primaryThread == None {
        return Idle;
      }
      outcome := SubmitToExecutor();
    }

    /** Lazy creation of the executor followed by one `submit`. */
    method SubmitToExecutor() returns (outcome: Outcome)
      requires Valid(Snapshot())
      modifies this
      ensures (Snapshot(), outcome) == SubmitHeartbeat(old(Snapshot()))
    {
      if threadSupport == None {
        threadSupport := Some(Pool(created, false, 0));
        created := created + 1;
      }
      var pool := threadSupport.value;
      if pool.isShutdown {
        outcome := Rejected;
      } else {
        threadSupport := Some(pool.(tasks := pool.tasks + 1));
        outcome := Submitted;
      }
    }

    method Dispose()
      requires Valid(Snapshot())
      modifies this`threadSupport
      ensures Snapshot() == AfterDispose(old(Snapshot()))
    {
      if threadSupport.Some? {
        threadSupport := Some(threadSupport.value.(isShutdown := true));
      }
    }
  }

  /** The wake-up service of package `service`, whose primary thread is set by the dispatchers. */
  class LegacyWakeUpBlockService {
    var heartBeat: bool
    var primaryThread: Option<ThreadId>
    var threadSupport: Option<Pool>
    var created: nat
    var retired: seq<Pool>

    function Snapshot(): Service
      reads this
    {
      Service(heartBeat, primaryThread, threadSupport, created, retired)
    }

    /** The heartbeat hack starts switched on. */
    constructor ()
      ensures Snapshot() == Service(true, None, None, 0, []) && Valid(Snapshot())
    {
      heartBeat := true;
      primaryThread := None;
      threadSupport := None;
      created := 0;
      retired := [];
    }

    method SetHeartBeat(enabled: bool)
      modifies this`heartBeat
      ensures Snapshot() == old(Snapshot()).(heartBeat := enabled)
    {
      heartBeat := enabled;
    }

    method SetPrimaryThread(thread: ThreadId)
      modifies this`primaryThread
      ensures Snapshot() == old(Snapshot()).(primaryThread := Some(thread))
    {
      primaryThread := Some(thread);
    }

    method EnsureWakeup() returns (outcome: Outcome)
      requires Valid(Snapshot())
      modifies this
      ensures (Snapshot(), outcome) == EnsureLegacy(old(Snapshot()))
    {
      if !heartBeat {
        if threadSupport.Some? {
          retired := retired + [threadSupport.value.(isShutdown := true)];
          threadSupport := None;
        }
        return Idle;
      }
      if primaryThread == None {
        return Idle;
      }
      if threadSupport == None {
        threadSupport := Some(Pool(created, false, 0));
        created := created + 1;
      }
      var pool := threadSupport.value;
      if pool.isShutdown {
        outcome := Rejected;
      } else {
        threadSupport := Some(pool.(tasks := pool.tasks + 1));
        outcome := Submitted;
      }
    }

    method Dispose()
      requires Valid(Snapshot())
      modifies this`threadSupport
      ensures Snapshot() == AfterDispose(old(Snapshot()))
    {
      if threadSupport.Some? {
        threadSupport := Some(threadSupport.value.(isShutdown := true));
      }
    }
  }
}
