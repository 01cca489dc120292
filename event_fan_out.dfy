/**
 * Firing a suspending event on Bukkit-like servers (`EventServiceImpl` of
 * the Bukkit, Folia and legacy Bukkit platforms): the thread checks, the
 * walk over the event's registered listeners in handler-list order, and the
 * coroutine each suspending listener is launched as.
 *
 * A registered listener is described by what the walk can observe of it:
 * whether its plugin is enabled, whether it is a suspending registration
 * (and then whether it ignores cancelled events, whether its executor is a
 * suspending one and whether its method handles the event's class), whether
 * calling it throws, and whether the scope it launches through is still open.
 * Each registration launches through its own scope: on Bukkit and Folia the
 * scope of the plugin that registered it, on the legacy service the session
 * captured when it was registered. Only the single Consecutive coroutine is
 * launched through the firing plugin's scope.
 */
module EventFanOut {
  import opened Runtime

  /** The event service of one platform; a Folia service knows whether Folia is loaded. */
  datatype Platform = Bukkit | Folia(foliaLoaded: bool) | LegacyBukkit

  datatype ExecutionType = Concurrent | Consecutive

  datatype Event = Event(async: bool, cancellable: bool, cancelled: bool)

  /** The failed `check` of fireSuspendingEvent (an IllegalStateException). */
  datatype Violation =
    | AsyncInsideSynchronized   // an async event fired while holding the service's lock
    | AsyncFromPrimary          // an async event fired on the primary thread
    | SyncOffPrimary            // a synchronous event fired off the primary thread

  /** The coroutine context a listener or the consecutive walk is launched on. */
  datatype EventContext =
    | AsyncDispatcher
    | MinecraftDispatcher
    | GlobalRegionDispatcher
    | Resolved(resolver: nat)   // what the Folia context resolver of the event class returns
    | Unconfined

  datatype StartMode = Default | Undispatched

  /** A job in the returned collection: a fresh job with nothing attached, or a launched coroutine. */
  datatype Job = Inert | Launched(context: EventContext, start: StartMode)

  datatype Kind =
    | PlainListener
    | Suspending(ignoresCancelled: bool, suspendingExecutor: bool, handlesEvent: bool)

  /**
   * A registered listener; `resolver` names the Folia context resolver of its
   * event class, and `scopeOpen` says whether the scope it launches through
   * (its plugin's, or its captured legacy session) is still open.
   */
  datatype Registration = Registration(pluginEnabled: bool, kind: Kind, throws: bool, resolver: nat, scopeOpen: bool)

  /** What the walk did with one registration. */
  datatype Visit =
    | SkippedDisabled          // its plugin is disabled
    | CalledPlain              // callEvent
    | CalledSuspending(job: Job)
    | Failed                   // the call threw; logged at SEVERE and the walk goes on

  /**
   * The checks at the start of fireSuspendingEvent on Bukkit and Folia: an
   * async event may not be fired under the service's lock nor on the primary
   * thread; a synchronous one only on the primary thread. The legacy service
   * checks nothing.
   */
  function CheckThread(p: Platform, event: Event, holdsLock: bool, isPrimary: bool): (r: Option<Violation>)
    ensures p == LegacyBukkit ==> r == None
    ensures p != LegacyBukkit ==> (r == None <==> if event.async then !holdsLock && !isPrimary else isPrimary)
    ensures r == Some(AsyncInsideSynchronized) <==> p != LegacyBukkit && event.async && holdsLock
    ensures r == Some(SyncOffPrimary) ==> !event.async && !isPrimary
  {
    if p == LegacyBukkit then None
    else if event.async then
      if holdsLock then Some(AsyncInsideSynchronized)
      else if isPrimary then Some(AsyncFromPrimary)
      else None
    else if !isPrimary then Some(SyncOffPrimary)
    else None
  }

  /**
   * The dispatcher of executeEvent: async events go to the async dispatcher
   * (Unconfined on the legacy service); synchronous ones to the minecraft
   * dispatcher, or on Folia to the context resolver when Folia is loaded and
   * the global region dispatcher when it is not.
   */
  function ListenerContext(p: Platform, event: Event, resolver: nat): (c: EventContext)
    ensures event.async ==> c == if p == LegacyBukkit then Unconfined else AsyncDispatcher
    ensures !event.async && p.Folia? ==> c == if p.foliaLoaded then Resolved(resolver) else GlobalRegionDispatcher
    ensures !event.async && !p.Folia? ==> c == MinecraftDispatcher
  {
    if event.async then (if p == LegacyBukkit then Unconfined else AsyncDispatcher)
    else match p
      case Folia(loaded) => if loaded then Resolved(resolver) else GlobalRegionDispatcher
      case _ => MinecraftDispatcher
  }

  /** Bukkit and Folia launch listeners UNDISPATCHED; the legacy session starts only Unconfined undispatched. */
  function ListenerStart(p: Platform, c: EventContext): (s: StartMode)
    ensures p != LegacyBukkit ==> s == Undispatched
    ensures p == LegacyBukkit ==> (s == Undispatched <==> c == Unconfined)
  {
    if p != LegacyBukkit || c == Unconfined then Undispatched else Default
  }

  /**
   * callSuspendingEvent of a suspending registration: a cancelled event is
   * skipped by a listener that ignores cancelled events; otherwise the
   * executor launches the listener when its method handles the event's class
   * and the registration's scope is open (still active, or not disposed).
   * createCoroutineListener always builds a SuspendingEventExecutor, so the
   * branch for another executor, which calls it synchronously and returns a
   * fresh job, is reached only by listeners built elsewhere; the model yields
   * the fresh job and leaves that synchronous call out.
   */
  function CallSuspendingEvent(p: Platform, scopeOpen: bool, event: Event, k: Kind, resolver: nat): (job: Job)
    requires k.Suspending?
    ensures job.Launched? <==>
      !(event.cancellable && event.cancelled && k.ignoresCancelled) && k.suspendingExecutor && k.handlesEvent && scopeOpen
    ensures job.Launched? ==>
      job.context == ListenerContext(p, event, resolver) && job.start == ListenerStart(p, job.context)
  {
    if event.cancellable && event.cancelled && k.ignoresCancelled then Inert
    else if !k.suspendingExecutor then Inert
    else if !k.handlesEvent then Inert
    else if !scopeOpen then Inert
    else
      var c := ListenerContext(p, event, resolver);
      Launched(c, ListenerStart(p, c))
  }

  /** What the walk does with one registration. */
  function VisitOf(p: Platform, event: Event, reg: Registration): (v: Visit)
    ensures v == SkippedDisabled <==> !reg.pluginEnabled
    ensures v == Failed <==> reg.pluginEnabled && reg.throws
    ensures v == CalledPlain <==> reg.pluginEnabled && !reg.throws && reg.kind.PlainListener?
    ensures v.CalledSuspending? <==> reg.pluginEnabled && !reg.throws && reg.kind.Suspending?
    ensures v.CalledSuspending? ==> v.job == CallSuspendingEvent(p, reg.scopeOpen, event, reg.kind, reg.resolver)
  {
    if !reg.pluginEnabled then SkippedDisabled
    else if reg.throws then Failed
    else if reg.kind.Suspending? then CalledSuspending(CallSuspendingEvent(p, reg.scopeOpen, event, reg.kind, reg.resolver))
    else CalledPlain
  }

  /** The walk over the registrations, in handler-list order. */
  function Visits(p: Platform, event: Event, regs: seq<Registration>): (vs: seq<Visit>)
    ensures |vs| == |regs|
    ensures forall i | 0 <= i < |regs| :: vs[i] == VisitOf(p, event, regs[i])
  {
    seq(|regs|, i requires 0 <= i < |regs| => VisitOf(p, event, regs[i]))
  }

  /** The jobs of the suspending calls among `vs`, in order. */
  function JobsOf(vs: seq<Visit>): (jobs: seq<Job>)
    ensures |jobs| <= |vs|
  {
    if vs == [] then []
    else (if vs[0].CalledSuspending? then [vs[0].job] else []) + JobsOf(vs[1..])
  }

  lemma {:induction false} JobsOfSnoc(vs: seq<Visit>, v: Visit)
    ensures JobsOf(vs + [v]) == JobsOf(vs) + if v.CalledSuspending? then [v.job] else []
  {
    if vs != [] {
      assert (vs + [v])[1..] == vs[1..] + [v];
      JobsOfSnoc(vs[1..], v);
    } else {
      assert [v][1..] == [];
    }
  }

  /** The number of registrations the Concurrent walk collects a job from. */
  function CountSuspending(regs: seq<Registration>): (n: nat)
    ensures n <= |regs|
  {
    if regs == [] then 0
    else (if regs[0].pluginEnabled && !regs[0].throws && regs[0].kind.Suspending? then 1 else 0) + CountSuspending(regs[1..])
  }

  /** One job per enabled, non-throwing suspending registration; plain listeners and skipped ones add none. */
  lemma {:induction false} OneJobPerSuspendingListener(p: Platform, event: Event, regs: seq<Registration>)
    ensures |JobsOf(Visits(p, event, regs))| == CountSuspending(regs)
  {
    if regs != [] {
      var vs := Visits(p, event, regs);
      assert vs[1..] == Visits(p, event, regs[1..]);
      OneJobPerSuspendingListener(p, event, regs[1..]);
    }
  }

  /** Of a cancelled event, no listener that ignores cancelled events gets a coroutine. */
  lemma CancelledEventSkipsIgnoringListeners(p: Platform, event: Event, reg: Registration)
    requires event.cancellable && event.cancelled
    requires reg.kind.Suspending? && reg.kind.ignoresCancelled
    ensures VisitOf(p, event, reg) in {SkippedDisabled, Failed, CalledSuspending(Inert)}
  {
  }

  /** An event of a class the listener's method does not handle invokes nothing and yields a fresh job. */
  lemma UnrelatedEventYieldsInertJob(p: Platform, scopeOpen: bool, event: Event, k: Kind, resolver: nat)
    requires k.Suspending? && !k.handlesEvent
    ensures CallSuspendingEvent(p, scopeOpen, event, k, resolver) == Inert
  {
  }

  /**
   * fireSuspendingEvent in Concurrent mode: every registration is visited in
   * handler-list order, and the job of each suspending call is collected.
   */
  method FireConcurrent(p: Platform, event: Event, regs: seq<Registration>)
    returns (jobs: seq<Job>, visits: seq<Visit>)
    ensures visits == Visits(p, event, regs)
    ensures jobs == JobsOf(visits)
    ensures |jobs| == CountSuspending(regs)
  {
    jobs := [];
    visits := [];
    var i := 0;
    while i < |regs|
      invariant 0 <= i <= |regs|
      invariant visits == Visits(p, event, regs[..i])
      invariant jobs == JobsOf(visits)
    {
      var reg := regs[i];
      var v: Visit;
      if !reg.pluginEnabled {
        v := SkippedDisabled;
      } else if reg.throws {
        v := Failed;
      } else if reg.kind.Suspending? {
        var job := CallSuspendingEvent(p, reg.scopeOpen, event, reg.kind, reg.resolver);
        jobs := jobs + [job];
        v := CalledSuspending(job);
      } else {
        v := CalledPlain;
      }
      JobsOfSnoc(visits, v);
      visits := visits + [v];
      i := i + 1;
    }
    assert regs[..i] == regs;
    OneJobPerSuspendingListener(p, event, regs);
  }

  /** The start mode of the single Consecutive coroutine: Bukkit's `launch` default, Folia's explicit UNDISPATCHED, the legacy Unconfined rule. */
  function ConsecutiveStart(p: Platform): (s: StartMode)
    ensures s == Default <==> p == Bukkit
  {
    if p == Bukkit then Default else Undispatched
  }

  /**
   * fireSuspendingEvent in Consecutive mode: exactly one job, an Unconfined
   * coroutine launched through the firing plugin's scope (`scopeOpen`) that
   * walks the registrations in order, joining each suspending call before the
   * next; each call still launches through its registration's own scope. A
   * closed firing scope launches nothing and walks nothing.
   */
  function FireConsecutive(p: Platform, scopeOpen: bool, event: Event, regs: seq<Registration>): (r: (seq<Job>, seq<Visit>))
    ensures |r.0| == 1
    ensures scopeOpen ==> r.0[0] == Launched(Unconfined, ConsecutiveStart(p)) && r.1 == Visits(p, event, regs)
    ensures !scopeOpen ==> r == ([Inert], [])
  {
    if !scopeOpen then ([Inert], [])
    else ([Launched(Unconfined, ConsecutiveStart(p))], Visits(p, event, regs))
  }

  /**
   * The single Consecutive coroutine makes, one after another, as many
   * suspending listener calls as Concurrent mode launches jobs.
   */
  lemma ModesVisitAlike(p: Platform, event: Event, regs: seq<Registration>)
    ensures |JobsOf(FireConsecutive(p, true, event, regs).1)| == CountSuspending(regs)
  {
    OneJobPerSuspendingListener(p, event, regs);
  }

  /**
   * fireSuspendingEvent: the thread checks, then the walk of the requested
   * mode. The returned visits are those of the Concurrent walk, or of the
   * coroutine launched by the Consecutive one; `scopeOpen` is the firing
   * plugin's scope, which only the Consecutive coroutine launches through.
   */
  method FireSuspendingEvent(p: Platform, mode: ExecutionType, event: Event, holdsLock: bool, isPrimary: bool,
                             scopeOpen: bool, regs: seq<Registration>)
    returns (r: Result<seq<Job>, Violation>, visits: seq<Visit>)
    ensures CheckThread(p, event, holdsLock, isPrimary).Some? ==>
      r == Err(CheckThread(p, event, holdsLock, isPrimary).value) && visits == []
    ensures CheckThread(p, event, holdsLock, isPrimary) == None && mode == Concurrent ==>
      visits == Visits(p, event, regs) && r == Ok(JobsOf(visits))
    ensures CheckThread(p, event, holdsLock, isPrimary) == None && mode == Consecutive ==>
      (r.Ok?, visits) == (true, FireConsecutive(p, scopeOpen, event, regs).1) && r.value == FireConsecutive(p, scopeOpen, event, regs).0
  {
    var violation := CheckThread(p, event, holdsLock, isPrimary);
    if violation.Some? {
      return Err(violation.value), [];
    }
    if mode == Concurrent {
      var jobs;
      jobs, visits := FireConcurrent(p, event, regs);
      r := Ok(jobs);
    } else {
      var jobsAndVisits := FireConsecutive(p, scopeOpen, event, regs);
      r := Ok(jobsAndVisits.0);
      visits := jobsAndVisits.1;
    }
  }

  /** A method scanned by Folia's createCoroutineListener; `handler` says it is an @EventHandler that is neither bridge nor synthetic. */
  datatype HandlerMethod = HandlerMethod(eventClass: nat, handler: bool)

  /** The event classes of the handler methods among `methods`. */
  ghost function HandledClasses(methods: seq<HandlerMethod>): set<nat>
  {
    set i | 0 <= i < |methods| && methods[i].handler :: methods[i].eventClass
  }

  /** Positions listed in strictly increasing order, hence each at most once. */
  predicate Increasing(s: seq<nat>)
  {
    forall j, k | 0 <= j < k < |s| :: s[j] < s[k]
  }

  /** Method `i` is a handler with no dispatcher mapping for its event class, and every handler before it has one. */
  predicate FirstUnmapped(methods: seq<HandlerMethod>, mapped: set<nat>, i: nat)
    requires i < |methods|
  {
    methods[i].handler && methods[i].eventClass !in mapped &&
    forall j | 0 <= j < i && methods[j].handler :: methods[j].eventClass in mapped
  }

  /** Position `k` is listed in the group of event class `c`. */
  predicate Listed(groups: map<nat, seq<nat>>, c: nat, k: nat)
  {
    c in groups && k in groups[c]
  }

  /**
   * `groups` holds exactly the handlers among the first `n` methods, each
   * under its own event class, in scan order: every listed position is a
   * handler of that class, every handler is listed under its class, and no
   * position is listed twice.
   */
  ghost predicate Grouped(methods: seq<HandlerMethod>, n: nat, groups: map<nat, seq<nat>>)
    requires n <= |methods|
  {
    (forall c: nat, k: nat | Listed(groups, c, k) :: k < n && methods[k].handler && methods[k].eventClass == c) &&
    (forall j: nat | j < n && methods[j].handler :: Listed(groups, methods[j].eventClass, j)) &&
    (forall c | c in groups :: Increasing(groups[c]))
  }

  /** A listed position is a handler of its group's class. */
  lemma ListedSound(methods: seq<HandlerMethod>, n: nat, groups: map<nat, seq<nat>>, c: nat, k: nat)
    requires n <= |methods| && Grouped(methods, n, groups) && c in groups && k in groups[c]
    ensures k < n && methods[k].handler && methods[k].eventClass == c
  {
    assert Listed(groups, c, k);
  }

  /** Appending handler `i` to its class's group extends the grouping by one method. */
  lemma GroupStep(methods: seq<HandlerMethod>, i: nat, groups: map<nat, seq<nat>>)
    requires i < |methods| && methods[i].handler && Grouped(methods, i, groups)
    ensures var c := methods[i].eventClass;
            var group := if c in groups then groups[c] else [];
            Grouped(methods, i + 1, groups[c := group + [i]])
  {
    var c := methods[i].eventClass;
    var group := if c in groups then groups[c] else [];
    var next := groups[c := group + [i]];
    forall k | k in group
      ensures k < i && methods[k].handler && methods[k].eventClass == c
    {
      assert Listed(groups, c, k);
    }
    forall d: nat, k: nat | Listed(next, d, k)
      ensures k < i + 1 && methods[k].handler && methods[k].eventClass == d
    {
      if d == c {
        assert k in group + [i];
        if k != i {
          assert k in group;
        }
      } else {
        assert Listed(groups, d, k);
      }
    }
    forall d | d in next
      ensures Increasing(next[d])
    {
      if d == c {
        var s := group + [i];
        forall j, k | 0 <= j < k < |s|
          ensures s[j] < s[k]
        {
          assert s[j] == group[j] && group[j] in group;
          if k < |group| {
            assert s[k] == group[k];
          }
        }
      }
    }
    forall j: nat | j < i + 1 && methods[j].handler
      ensures Listed(next, methods[j].eventClass, j)
    {
      if j < i {
        assert Listed(groups, methods[j].eventClass, j);
      } else {
        assert next[c][|group|] == i;
      }
    }
  }

  /** A method that is no handler leaves the grouping as it is. */
  lemma GroupSkip(methods: seq<HandlerMethod>, i: nat, groups: map<nat, seq<nat>>)
    requires i < |methods| && !methods[i].handler && Grouped(methods, i, groups)
    ensures Grouped(methods, i + 1, groups)
  {
  }

  /**
   * The loop state of createCoroutineListener after scanning the first `n`
   * methods: each handler among them has a dispatcher mapping, and `groups`
   * holds exactly their event classes and their grouping.
   */
  ghost predicate Scanned(methods: seq<HandlerMethod>, mapped: set<nat>, n: nat, groups: map<nat, seq<nat>>)
  {
    n <= |methods| &&
    (forall j | 0 <= j < n && methods[j].handler :: methods[j].eventClass in mapped) &&
    (forall c | c in groups :: groups[c] != []) &&
    Grouped(methods, n, groups)
  }

  /** Scanning a handler whose class is mapped appends its position to its class's group. */
  lemma ScanHandler(methods: seq<HandlerMethod>, mapped: set<nat>, i: nat, groups: map<nat, seq<nat>>, group: seq<nat>)
    requires i < |methods| && Scanned(methods, mapped, i, groups)
    requires methods[i].handler && methods[i].eventClass in mapped
    requires group == if methods[i].eventClass in groups then groups[methods[i].eventClass] else []
    ensures Scanned(methods, mapped, i + 1, groups[methods[i].eventClass := group + [i]])
  {
    GroupStep(methods, i, groups);
  }

  /** Scanning a method that is no handler changes nothing. */
  lemma ScanOther(methods: seq<HandlerMethod>, mapped: set<nat>, i: nat, groups: map<nat, seq<nat>>)
    requires i < |methods| && Scanned(methods, mapped, i, groups) && !methods[i].handler
    ensures Scanned(methods, mapped, i + 1, groups)
  {
    GroupSkip(methods, i, groups);
  }

  /** Before the scan nothing is grouped. */
  lemma ScanStart(methods: seq<HandlerMethod>, mapped: set<nat>)
    ensures Scanned(methods, mapped, 0, map[])
  {
  }

  /** Handler `i` is the first one without a dispatcher mapping, so the registration fails naming its class. */
  lemma ScanFails(methods: seq<HandlerMethod>, mapped: set<nat>, i: nat, groups: map<nat, seq<nat>>)
    requires i < |methods| && Scanned(methods, mapped, i, groups)
    requires methods[i].handler && methods[i].eventClass !in mapped
    ensures FirstUnmapped(methods, mapped, i)
    ensures methods[i].eventClass in HandledClasses(methods)
  {
  }

  /** Once every method is scanned, the groups are the registration's result. */
  lemma ScanDone(methods: seq<HandlerMethod>, mapped: set<nat>, groups: map<nat, seq<nat>>)
    requires Scanned(methods, mapped, |methods|, groups)
    ensures forall i | 0 <= i < |methods| && methods[i].handler :: methods[i].eventClass in mapped
    ensures groups.Keys == HandledClasses(methods) && groups.Keys <= mapped
    ensures forall c, j | c in groups && 0 <= j < |groups[c]| ::
      groups[c][j] < |methods| && methods[groups[c][j]].handler && methods[groups[c][j]].eventClass == c
    ensures forall i | 0 <= i < |methods| && methods[i].handler ::
      methods[i].eventClass in groups && i in groups[methods[i].eventClass]
    ensures forall c | c in groups :: Increasing(groups[c])
  {
    forall c | c in groups
      ensures c in HandledClasses(methods) && c in mapped
    {
      var k := groups[c][0];
      assert Listed(groups, c, k);
    }
    forall i | 0 <= i < |methods| && methods[i].handler
      ensures methods[i].eventClass in groups && i in groups[methods[i].eventClass]
    {
      assert Listed(groups, methods[i].eventClass, i);
    }
    forall c | c in HandledClasses(methods)
      ensures c in groups
    {
      var i :| 0 <= i < |methods| && methods[i].handler && methods[i].eventClass == c;
      assert Listed(groups, c, i);
    }
    forall c, j | c in groups && 0 <= j < |groups[c]|
      ensures groups[c][j] < |methods| && methods[groups[c][j]].handler && methods[groups[c][j]].eventClass == c
    {
      ListedSound(methods, |methods|, groups, c, groups[c][j]);
    }
  }

  /**
   * Folia's createCoroutineListener: handler methods are grouped by event
   * class (as method positions, in scan order); a handler whose event class
   * has no entry in the dispatcher mapping makes the whole registration throw
   * IllegalArgumentException, naming that class.
   */
  method CreateCoroutineListener(methods: seq<HandlerMethod>, mapped: set<nat>) returns (r: Result<map<nat, seq<nat>>, nat>)
    ensures r.Err? ==> r.error !in mapped && r.error in HandledClasses(methods)
    ensures r.Ok? ==> forall i | 0 <= i < |methods| && methods[i].handler :: methods[i].eventClass in mapped
    ensures r.Ok? ==> r.value.Keys == HandledClasses(methods) && r.value.Keys <= mapped
    ensures r.Err? ==> exists i | 0 <= i < |methods| :: FirstUnmapped(methods, mapped, i) && methods[i].eventClass == r.error
    ensures r.Ok? ==> forall c, j | c in r.value && 0 <= j < |r.value[c]| ::
      r.value[c][j] < |methods| && methods[r.value[c][j]].handler && methods[r.value[c][j]].eventClass == c
    ensures r.Ok? ==> forall i | 0 <= i < |methods| && methods[i].handler ::
      methods[i].eventClass in r.value && i in r.value[methods[i].eventClass]
    ensures r.Ok? ==> forall c | c in r.value :: Increasing(r.value[c])
  {
    var result: map<nat, seq<nat>> := map[];
    var i := 0;
    ScanStart(methods, mapped);
    while i < |methods|
      invariant Scanned(methods, mapped, i, result)
    {
      var m := methods[i];
      if m.handler && m.eventClass !in mapped {
        ScanFails(methods, mapped, i, result);
        return Err(m.eventClass);
      }
      if m.handler {
        var group := if m.eventClass in result then result[m.eventClass] else [];
        ScanHandler(methods, mapped, i, result, group);
        result := result[m.eventClass := group + [i]];
      } else {
        ScanOther(methods, mapped, i, result);
      }
      i := i + 1;
    }
    ScanDone(methods, mapped, result);
    r := Ok(result);
  }

  /**
   * One invocation of a listener method by Folia's SuspendingEventExecutor:
   * whether the method accepts being called as a suspend function, and
   * whether the call that is made returns normally.
   */
  datatype Attempt = Attempt(suspendCallWorks: bool, completes: bool)

  /**
   * `isSuspendMethod` of Folia's SuspendingEventExecutor: while it is unknown,
   * an invocation tries the method as a suspend function and falls back to a
   * plain call, and records which call it made only once that call returns
   * normally; when it is known, the invocation makes that call directly.
   * The result is the new memo and whether the method was called as a
   * suspend function.
   */
  function Invoke(memo: Option<bool>, attempt: Attempt): (r: (Option<bool>, bool))
    ensures memo.None? ==> r.1 == attempt.suspendCallWorks
    ensures memo.None? ==> (r.0.Some? <==> attempt.completes)
    ensures memo.None? && attempt.completes ==> r.0 == Some(attempt.suspendCallWorks)
    ensures memo.Some? ==> r == (memo, memo.value)
  {
    match memo
    case None => (if attempt.completes then Some(attempt.suspendCallWorks) else None, attempt.suspendCallWorks)
    case Some(isSuspend) => (memo, isSuspend)
  }

  /** Successive invocations: the memo and, in order, whether each invocation called the method as a suspend function. */
  function InvokeAll(memo: Option<bool>, tries: seq<Attempt>): (r: (Option<bool>, seq<bool>))
    ensures |r.1| == |tries|
    decreases |tries|
  {
    if tries == [] then (memo, [])
    else
      var (m1, asSuspend) := Invoke(memo, tries[0]);
      var (m2, rest) := InvokeAll(m1, tries[1..]);
      (m2, [asSuspend] + rest)
  }

  /** Once decided, `isSuspendMethod` never changes and every later invocation calls the method the same way. */
  lemma {:induction false} DecidedOnFirstCall(memo: Option<bool>, tries: seq<Attempt>)
    requires memo.Some?
    ensures InvokeAll(memo, tries).0 == memo
    ensures forall i | 0 <= i < |tries| :: InvokeAll(memo, tries).1[i] == memo.value
    decreases |tries|
  {
    if tries != [] {
      DecidedOnFirstCall(memo, tries[1..]);
    }
  }

  /**
   * From an unknown memo, the first invocation that returns normally decides
   * `isSuspendMethod`: it and every earlier invocation probe the method
   * afresh, and every later one calls it the way that invocation did.
   */
  lemma {:induction false} MemoFromFirstCompleted(tries: seq<Attempt>, k: nat)
    requires k < |tries| && tries[k].completes
    requires forall j | 0 <= j < k :: !tries[j].completes
    ensures InvokeAll(None, tries).0 == Some(tries[k].suspendCallWorks)
    ensures forall i | 0 <= i <= k :: InvokeAll(None, tries).1[i] == tries[i].suspendCallWorks
    ensures forall i | k < i < |tries| :: InvokeAll(None, tries).1[i] == tries[k].suspendCallWorks
    decreases k
  {
    var rest := InvokeAll(Invoke(None, tries[0]).0, tries[1..]);
    assert InvokeAll(None, tries) == (rest.0, [tries[0].suspendCallWorks] + rest.1);
    if k == 0 {
      DecidedOnFirstCall(Some(tries[0].suspendCallWorks), tries[1..]);
    } else {
      MemoFromFirstCompleted(tries[1..], k - 1);
    }
  }

  /** While no invocation returns normally, `isSuspendMethod` stays unknown and every invocation probes the method afresh. */
  lemma {:induction false} NoCompletionKeepsProbing(tries: seq<Attempt>)
    requires forall j | 0 <= j < |tries| :: !tries[j].completes
    ensures InvokeAll(None, tries).0 == None
    ensures forall i | 0 <= i < |tries| :: InvokeAll(None, tries).1[i] == tries[i].suspendCallWorks
    decreases |tries|
  {
    if tries != [] {
      NoCompletionKeepsProbing(tries[1..]);
    }
  }

  /** The executor object that holds the memo. */
  class SuspendingEventExecutor {
    var isSuspendMethod: Option<bool>

    constructor ()
      ensures isSuspendMethod == None
    {
      isSuspendMethod := None;
    }

    method InvokeListener(attempt: Attempt) returns (calledAsSuspend: bool)
      modifies this
      ensures (isSuspendMethod, calledAsSuspend) == Invoke(old(isSuspendMethod), attempt)
    {
      if isSuspendMethod == None {
        calledAsSuspend := attempt.suspendCallWorks;
        if attempt.completes {
          isSuspendMethod := Some(attempt.suspendCallWorks);
        }
      } else {
        calledAsSuspend := isSuspendMethod.value;
      }
    }
  }
}
