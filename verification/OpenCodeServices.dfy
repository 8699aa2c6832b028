/** OpenCode servers by directory (src-tauri/src/local_cli_service_lifecycle.rs): looked up
    without the mutation lock, looked up again under it, then started and registered. Every
    event is one critical section; a task sits between two of them. */
module OpenCodeServices {
  import opened Wrappers

  type Cwd = string
  type Svc = nat
  type TaskId = nat

  datatype Task =
    | Waiting(cwd: Cwd)
    | Looking(cwd: Cwd)
    | Starting(cwd: Cwd)
    | Storing(cwd: Cwd, svc: Svc)
    | Removing(cwd: Cwd)
    | Draining
    | Stopping(left: set<Svc>, clean: bool)
    | Got(cwd: Cwd, svc: Svc)
    | Over(ok: bool)

  /** `started` remembers the directory of every server ever started; `alive` are those not
      yet told to stop. */
  datatype State = State(
    services: map<Cwd, Svc>, started: map<Svc, Cwd>, alive: set<Svc>, lock: Option<TaskId>, tasks: map<TaskId, Task>)

  const INIT := State(map[], map[], {}, None, map[])

  datatype Event =
    | FirstLook(task: TaskId, cwd: Cwd)
    | EnterLock(task: TaskId)
    | SecondLook(task: TaskId)
    | StartFails(task: TaskId)
    | StartOk(task: TaskId, svc: Svc)
    | Store(task: TaskId)
    | EndEnter(task: TaskId, which: Option<Cwd>)
    | Remove(task: TaskId)
    | Drain(task: TaskId)
    | StopOne(task: TaskId, svc: Svc, ok: bool)
    | StopDone(task: TaskId)

  predicate At(s: State, t: TaskId) { t in s.tasks }

  predicate CanHappen(s: State, e: Event) {
    match e
    case FirstLook(t, cwd) => t !in s.tasks
    case EnterLock(t) => At(s, t) && s.tasks[t].Waiting? && s.lock.None?
    case SecondLook(t) => At(s, t) && s.tasks[t].Looking?
    case StartFails(t) => At(s, t) && s.tasks[t].Starting?
    case StartOk(t, svc) => At(s, t) && s.tasks[t].Starting? && svc !in s.started
    case Store(t) => At(s, t) && s.tasks[t].Storing?
    case EndEnter(t, _) => t !in s.tasks && s.lock.None?
    case Remove(t) => At(s, t) && s.tasks[t].Removing?
    case Drain(t) => At(s, t) && s.tasks[t].Draining?
    case StopOne(t, svc, ok) => At(s, t) && s.tasks[t].Stopping? && svc in s.tasks[t].left
    case StopDone(t) => At(s, t) && s.tasks[t].Stopping? && s.tasks[t].left == {}
  }

  function Go(s: State, t: TaskId, task: Task): State { s.(tasks := s.tasks[t := task]) }
  function Finish(s: State, t: TaskId, task: Task): State { s.(tasks := s.tasks[t := task], lock := None) }

  function EndpointStep(s: State, e: Event): State
    requires CanHappen(s, e) && (e.FirstLook? || e.EnterLock? || e.SecondLook? || e.StartFails? || e.StartOk? || e.Store?)
  {
    match e
    case FirstLook(t, cwd) => Go(s, t, if cwd in s.services then Got(cwd, s.services[cwd]) else Waiting(cwd))
    case EnterLock(t) => Go(s.(lock := Some(t)), t, Looking(s.tasks[t].cwd))
    case SecondLook(t) =>
      var cwd := s.tasks[t].cwd;
      if cwd in s.services then Finish(s, t, Got(cwd, s.services[cwd])) else Go(s, t, Starting(cwd))
    case StartFails(t) => Finish(s, t, Over(false))
    case StartOk(t, svc) =>
      Go(s.(started := s.started[svc := s.tasks[t].cwd], alive := s.alive + {svc}), t, Storing(s.tasks[t].cwd, svc))
    case Store(t) =>
      Finish(s.(services := s.services[s.tasks[t].cwd := s.tasks[t].svc]), t, Got(s.tasks[t].cwd, s.tasks[t].svc))
  }

  function EndStep(s: State, e: Event): State
    requires CanHappen(s, e) && (e.EndEnter? || e.Remove? || e.Drain? || e.StopOne? || e.StopDone?)
  {
    match e
    case EndEnter(t, which) => Go(s.(lock := Some(t)), t, if which.Some? then Removing(which.value) else Draining)
    case Remove(t) =>
      var cwd := s.tasks[t].cwd;
      if cwd in s.services then Go(s.(services := s.services - {cwd}), t, Stopping({s.services[cwd]}, true))
      else Finish(s, t, Over(false))
    case Drain(t) => Go(s.(services := map[]), t, Stopping(s.services.Values, true))
    case StopOne(t, svc, ok) =>
      Go(s.(alive := s.alive - {svc}), t, Stopping(s.tasks[t].left - {svc}, s.tasks[t].clean && ok))
    case StopDone(t) => Finish(s, t, Over(s.tasks[t].clean))
  }

  predicate ForEndpoint(e: Event) { e.FirstLook? || e.EnterLock? || e.SecondLook? || e.StartFails? || e.StartOk? || e.Store? }

  function Step(s: State, e: Event): State {
    if !CanHappen(s, e) then s else if ForEndpoint(e) then EndpointStep(s, e) else EndStep(s, e)
  }

  function Run(es: seq<Event>): State {
    if es == [] then INIT else Step(Run(es[..|es| - 1]), es[|es| - 1])
  }

  // -------------------------------------------------------------------- invariant

  predicate Busy(task: Task) { !task.Waiting? && !task.Got? && !task.Over? }

  /** Servers the holder of the lock is putting in or taking out. */
  function InTransit(s: State): set<Svc> {
    if s.lock.None? || s.lock.value !in s.tasks then {}
    else match s.tasks[s.lock.value]
         case Storing(_, svc) => {svc}
         case Stopping(left, _) => left
         case _ => {}
  }

  predicate HolderOk(s: State, task: Task) {
    match task
    case Starting(cwd) => cwd !in s.services
    case Storing(cwd, svc) => cwd !in s.services && svc in s.started && s.started[svc] == cwd
    case Stopping(left, _) => forall svc <- left :: svc in s.started && s.started[svc] !in s.services
    case _ => true
  }

  ghost predicate LockOk(s: State) {
    && (forall t <- s.tasks :: Busy(s.tasks[t]) ==> s.lock == Some(t) && HolderOk(s, s.tasks[t]))
    && (s.lock.Some? ==> s.lock.value in s.tasks && Busy(s.tasks[s.lock.value]))
  }

  predicate Registered(s: State, svc: Svc) {
    svc in s.started && s.started[svc] in s.services && s.services[s.started[svc]] == svc
  }

  /** Every registered server was started for its directory, and the servers alive are the
      registered ones and those in transit. */
  ghost predicate TableOk(s: State) {
    && (forall cwd <- s.services :: s.services[cwd] in s.started && s.started[s.services[cwd]] == cwd)
    && (forall svc :: svc in s.alive <==> Registered(s, svc) || svc in InTransit(s))
    && (forall svc <- s.alive :: svc in s.started)
  }

  ghost predicate OnePerDirectory(s: State) {
    forall a, b :: a in s.alive && b in s.alive && a in s.started && b in s.started && s.started[a] == s.started[b] ==> a == b
  }

  ghost predicate Sound(s: State) { LockOk(s) && TableOk(s) && OnePerDirectory(s) }

  lemma ValuesAreRegistered(s: State, svc: Svc)
    requires TableOk(s)
    ensures svc in s.services.Values <==> Registered(s, svc)
  {
  }

  // ----------------------------------------------------------------- preservation

  lemma EndpointKeepsLock(s: State, e: Event)
    requires Sound(s) && CanHappen(s, e) && ForEndpoint(e)
    ensures LockOk(EndpointStep(s, e))
  {
  }

  lemma EndpointKeepsTable(s: State, e: Event)
    requires Sound(s) && CanHappen(s, e) && ForEndpoint(e)
    ensures TableOk(EndpointStep(s, e)) && OnePerDirectory(EndpointStep(s, e))
  {
    if e.StartOk? || e.Store? { assert HolderOk(s, s.tasks[e.task]); }
  }

  lemma EndKeepsLock(s: State, e: Event)
    requires Sound(s) && CanHappen(s, e) && !ForEndpoint(e)
    ensures LockOk(EndStep(s, e))
  {
    if e.StopOne? { assert HolderOk(s, s.tasks[e.task]); }
  }

  lemma EndKeepsTable(s: State, e: Event)
    requires Sound(s) && CanHappen(s, e) && !ForEndpoint(e)
    ensures TableOk(EndStep(s, e)) && OnePerDirectory(EndStep(s, e))
  {
    if e.StopOne? { assert HolderOk(s, s.tasks[e.task]); }
    if e.Drain? {
      forall svc { ValuesAreRegistered(s, svc); }
    }
  }

  lemma StepKeepsSound(s: State, e: Event)
    requires Sound(s)
    ensures Sound(Step(s, e))
  {
    if CanHappen(s, e) {
      if ForEndpoint(e) {
        EndpointKeepsLock(s, e);
        EndpointKeepsTable(s, e);
      } else {
        EndKeepsLock(s, e);
        EndKeepsTable(s, e);
      }
    }
  }

  lemma {:induction false} RunKeepsSound(es: seq<Event>)
    ensures Sound(Run(es))
  {
    if es != [] {
      RunKeepsSound(es[..|es| - 1]);
      StepKeepsSound(Run(es[..|es| - 1]), es[|es| - 1]);
    }
  }

  /** Looking twice never starts a second server: in every interleaving at most one server
      per directory is alive. */
  lemma NeverTwoServersForOneDirectory(es: seq<Event>, a: Svc, b: Svc)
    requires a in Run(es).alive && b in Run(es).alive
    ensures a in Run(es).started && b in Run(es).started && (Run(es).started[a] == Run(es).started[b] ==> a == b)
  {
    RunKeepsSound(es);
  }

  /** With the mutation lock free the servers alive are exactly the registered ones. */
  lemma AliveIffRegistered(es: seq<Event>, svc: Svc)
    requires Run(es).lock.None?
    ensures svc in Run(es).alive <==> exists cwd :: cwd in Run(es).services && Run(es).services[cwd] == svc
  {
    RunKeepsSound(es);
  }

  predicate Gets(s: State, e: Event) { CanHappen(s, e) && e.task in Step(s, e).tasks && Step(s, e).tasks[e.task].Got? }

  /** An endpoint is handed out only for a server registered for that very directory, and
      alive at that moment. */
  lemma EndpointIsRegisteredAndAlive(es: seq<Event>, e: Event)
    requires Gets(Run(es), e)
    ensures var s := Step(Run(es), e);
            var got := s.tasks[e.task];
            got.cwd in s.services && s.services[got.cwd] == got.svc && got.svc in s.alive && Registered(s, got.svc)
  {
    RunKeepsSound(es);
    StepKeepsSound(Run(es), e);
  }

  /** The first look needs no lock: a registered server is found even while another call
      holds the lock. */
  lemma FirstLookNeedsNoLock(s: State, t: TaskId, cwd: Cwd)
    requires t !in s.tasks
    ensures var s' := Step(s, FirstLook(t, cwd));
            s'.lock == s.lock && t in s'.tasks && (s'.tasks[t].Got? <==> cwd in s.services)
  {
  }

  // -------------------------------------------------------------------- the handle

  /** A state some run leads to. */
  ghost predicate Reachable(s: State) { exists es :: s == Run(es) }

  lemma ReachableStep(s: State, e: Event)
    requires Reachable(s)
    ensures Reachable(Step(s, e))
  {
    var es :| s == Run(es);
    assert (es + [e])[..|es + [e]| - 1] == es;
    assert Step(s, e) == Run(es + [e]);
  }

  lemma ReachableSound(s: State)
    requires Reachable(s)
    ensures Sound(s)
  {
    var es :| s == Run(es);
    RunKeepsSound(es);
  }

  lemma LookReaches(s: State, t: TaskId, cwd: Cwd)
    requires Reachable(s) && t !in s.tasks && s.lock.None?
    ensures cwd in s.services ==> Reachable(Go(s, t, Got(cwd, s.services[cwd])))
    ensures cwd !in s.services ==> Reachable(Go(s.(lock := Some(t)), t, Starting(cwd)))
  {
    ReachableStep(s, FirstLook(t, cwd));
    if cwd !in s.services {
      var s1 := Go(s, t, Waiting(cwd));
      var s2 := Go(s1.(lock := Some(t)), t, Looking(cwd));
      ReachableStep(s1, EnterLock(t));
      ReachableStep(s2, SecondLook(t));
      assert Go(s2, t, Starting(cwd)) == Go(s.(lock := Some(t)), t, Starting(cwd));
    }
  }

  lemma StartReaches(s: State, t: TaskId, cwd: Cwd, svc: Svc)
    requires Reachable(s) && t in s.tasks && s.tasks[t] == Starting(cwd)
    ensures Reachable(Finish(s, t, Over(false)))
    ensures svc !in s.started ==>
              Reachable(s.(started := s.started[svc := cwd], alive := s.alive + {svc}, services := s.services[cwd := svc],
                           lock := None, tasks := s.tasks[t := Got(cwd, svc)]))
  {
    ReachableStep(s, StartFails(t));
    if svc !in s.started {
      ReachableStep(s, StartOk(t, svc));
      var s1 := Go(s.(started := s.started[svc := cwd], alive := s.alive + {svc}), t, Storing(cwd, svc));
      ReachableStep(s1, Store(t));
      assert s1.tasks[t := Got(cwd, svc)] == s.tasks[t := Got(cwd, svc)];
    }
  }

  lemma DrainReaches(s: State, t: TaskId)
    requires Reachable(s) && t !in s.tasks && s.lock.None?
    ensures Reachable(Go(s.(lock := Some(t), services := map[]), t, Stopping(s.services.Values, true)))
  {
    ReachableStep(s, EndEnter(t, None));
    var s1 := Go(s.(lock := Some(t)), t, Draining);
    ReachableStep(s1, Drain(t));
    assert s1.tasks[t := Stopping(s.services.Values, true)] == s.tasks[t := Stopping(s.services.Values, true)];
  }

  lemma RemoveReaches(s: State, t: TaskId, cwd: Cwd)
    requires Reachable(s) && t !in s.tasks && s.lock.None?
    ensures cwd !in s.services ==> Reachable(Go(s, t, Over(false)))
    ensures cwd in s.services ==> Reachable(Go(s.(lock := Some(t), services := s.services - {cwd}), t, Stopping({s.services[cwd]}, true)))
  {
    ReachableStep(s, EndEnter(t, Some(cwd)));
    var s1 := Go(s.(lock := Some(t)), t, Removing(cwd));
    ReachableStep(s1, Remove(t));
    assert s1.tasks[t := Over(false)] == s.tasks[t := Over(false)];
    assert cwd in s.services ==> s1.tasks[t := Stopping({s.services[cwd]}, true)] == s.tasks[t := Stopping({s.services[cwd]}, true)];
  }

  lemma StopReaches(s: State, t: TaskId, svc: Svc, ok: bool)
    requires Reachable(s) && t in s.tasks && s.tasks[t].Stopping? && svc in s.tasks[t].left
    ensures Reachable(Go(s.(alive := s.alive - {svc}), t, Stopping(s.tasks[t].left - {svc}, s.tasks[t].clean && ok)))
  {
    ReachableStep(s, StopOne(t, svc, ok));
  }

  lemma DoneReaches(s: State, t: TaskId)
    requires Reachable(s) && t in s.tasks && s.tasks[t].Stopping? && s.tasks[t].left == {}
    ensures Reachable(Finish(s, t, Over(s.tasks[t].clean)))
  {
    ReachableStep(s, StopDone(t));
  }

  /** The handle as it runs, one call at a time. Starting or stopping a server may fail; what
      the world does is a parameter. */
  class Handle {
    var services: map<Cwd, Svc>
    ghost var started: map<Svc, Cwd>
    ghost var alive: set<Svc>
    ghost var lock: Option<TaskId>
    ghost var tasks: map<TaskId, Task>

    ghost function Now(): State
      reads this
    {
      State(services, started, alive, lock, tasks)
    }

    /** In a reachable state, with the mutation lock free. */
    ghost predicate Valid()
      reads this
    {
      Reachable(Now()) && lock.None?
    }

    constructor ()
      ensures Valid() && Now() == INIT
    {
      services, started, alive, lock, tasks := map[], map[], {}, None, map[];
      new;
      assert Now() == Run([]);
    }

    /** `endpoint_for_cwd`: the server registered for the directory, or a new one that from
        now on is; if none can be started nothing changes. What is returned has not been told
        to stop. */
    method Endpoint(ghost t: TaskId, cwd: Cwd, starts: Option<Svc>) returns (found: Option<Svc>)
      requires Valid() && t !in tasks && (starts.Some? ==> starts.value !in started)
      modifies this
      ensures Valid() && found == if cwd in old(services) then Some(old(services)[cwd]) else starts
      ensures services == if found.Some? then old(services)[cwd := found.value] else old(services)
      ensures alive == if found.Some? then old(alive) + {found.value} else old(alive)
      ensures found.Some? && cwd in old(services) ==> found.value in old(alive)
    {
      LookReaches(Now(), t, cwd);
      if cwd in services {
        ReachableSound(Now());
        found := Some(services[cwd]);
        assert Registered(Now(), services[cwd]);
        assert services[cwd := services[cwd]] == services && alive + {services[cwd]} == alive;
        tasks := tasks[t := Got(cwd, services[cwd])];
        return;
      }
      lock := Some(t);
      tasks := tasks[t := Starting(cwd)];
      StartReaches(Now(), t, cwd, if starts.Some? then starts.value else 0);
      if starts.Some? {
        started, alive := started[starts.value := cwd], alive + {starts.value};
        services := services[cwd := starts.value];
      }
      tasks := tasks[t := if starts.Some? then Got(cwd, starts.value) else Over(false)];
      lock := None;
      found := starts;
    }

    /** `terminate_all`: nothing stays registered, every server that was registered has been
        told to stop, whether or not another stop failed, and no other. */
    method TerminateAll(ghost t: TaskId, stops: Svc -> bool) returns (ok: bool)
      requires Valid() && t !in tasks
      modifies this
      ensures Valid() && services == map[] && alive == {} && started == old(started)
      ensures ok <==> forall cwd <- old(services) :: stops(old(services)[cwd])
    {
      ReachableSound(Now());
      DrainReaches(Now(), t);
      var left := services.Values;
      forall svc ensures svc in left <==> svc in alive { ValuesAreRegistered(Now(), svc); }
      services := map[];
      lock, tasks := Some(t), tasks[t := Stopping(left, true)];
      ok := StopEach(t, left, stops);
      assert alive == {};
      assert forall cwd <- old(services) :: old(services)[cwd] in old(services).Values;
    }

    /** `terminate_cwd`: that directory has no server any more, and no other is affected. */
    method TerminateCwd(ghost t: TaskId, cwd: Cwd, stops: Svc -> bool) returns (ok: bool)
      requires Valid() && t !in tasks
      modifies this
      ensures Valid() && services == old(services) - {cwd} && started == old(started)
      ensures alive == if cwd in old(services) then old(alive) - {old(services)[cwd]} else old(alive)
      ensures ok <==> cwd in old(services) && stops(old(services)[cwd])
    {
      RemoveReaches(Now(), t, cwd);
      if cwd !in services {
        tasks := tasks[t := Over(false)];
        assert services - {cwd} == services;
        return false;
      }
      var svc := services[cwd];
      services := services - {cwd};
      lock, tasks := Some(t), tasks[t := Stopping({svc}, true)];
      ok := StopEach(t, {svc}, stops);
    }

    /** Tells servers to stop, one by one, and gives the lock back. */
    method StopEach(ghost t: TaskId, svcs: set<Svc>, stops: Svc -> bool) returns (ok: bool)
      requires Reachable(Now()) && t in tasks && tasks[t] == Stopping(svcs, true)
      modifies this`alive, this`tasks, this`lock
      ensures Valid() && alive == old(alive) - svcs
      ensures ok <==> forall svc <- svcs :: stops(svc)
    {
      var left := svcs;
      ok := true;
      while left != {}
        invariant left <= svcs && Reachable(Now()) && t in tasks && tasks[t] == Stopping(left, ok)
        invariant alive == old(alive) - (svcs - left)
        invariant ok <==> forall svc <- svcs :: svc in left || stops(svc)
      {
        var svc :| svc in left;
        StopReaches(Now(), t, svc, stops(svc));
        alive := alive - {svc};
        ok := ok && stops(svc);
        left := left - {svc};
        tasks := tasks[t := Stopping(left, ok)];
      }
      DoneReaches(Now(), t);
      tasks := tasks[t := Over(ok)];
      lock := None;
    }
  }
}
