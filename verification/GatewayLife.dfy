/** The gateway's servers and names over every run: never two servers at once, starting a
    running gateway does nothing, and no lease without a name or from before the first start. */
module GatewayLife {
  import opened Wrappers
  import opened Gateway
  import opened GatewayLeases

  // -------------------------------------------------------------------- servers

  /** The server a start or shutdown is stopping, or has just spawned. */
  function ServerOf(task: Task): Option<ServerId> {
    if !task.Operating? then None
    else match task.stage
      case Cancel(v) => v
      case Join(v) => v
      case Commit(v, _) => Some(v)
      case _ => None
  }

  /** A server that has not exited is the running one, or in the hands of the operation. */
  ghost predicate Owned(s: State, v: ServerId) {
    s.life.server == Some(v) || exists t <- s.tasks :: ServerOf(s.tasks[t]) == Some(v)
  }

  /** Past its first section an operation has taken the server over, and the one it waits for
      has been told to stop. */
  predicate StageOk(s: State, task: Task) {
    task.Operating? ==>
      && (!task.stage.Take? ==> s.life.server.None?)
      && (task.stage.Join? && task.stage.server.Some? && task.stage.server.value in s.servers ==>
            s.servers[task.stage.server.value] != Serving(false))
  }

  ghost predicate ServersOk(s: State) {
    && LifeOk(s)
    && (s.life.phase.Stopped? ==> s.life.server.None?)
    && (forall v <- s.servers :: !s.servers[v].Exited? ==> Owned(s, v))
    && (forall t <- s.tasks :: StageOk(s, s.tasks[t]))
  }

  /** Nothing about servers and operations changes. */
  lemma QuietKeepsServers(s: State, s': State, t: Option<TaskId>)
    requires ServersOk(s) && LifeOk(s') && s'.life == s.life && s'.servers == s.servers && OnlyTask(s, s', t)
    requires forall u :: u in s'.tasks && t == Some(u) ==> !s'.tasks[u].Operating?
    requires forall u <- s.tasks :: s.tasks[u].Operating? ==> u in s'.tasks && s'.tasks[u] == s.tasks[u]
    ensures ServersOk(s')
  {
    forall v | v in s'.servers && !s'.servers[v].Exited? ensures Owned(s', v) {
      assert Owned(s, v);
      if s.life.server != Some(v) {
        var u :| u in s.tasks && ServerOf(s.tasks[u]) == Some(v);
        assert ServerOf(s'.tasks[u]) == Some(v);
      }
    }
    forall u | u in s'.tasks ensures StageOk(s', s'.tasks[u]) {
      if u in s.tasks && s'.tasks[u] == s.tasks[u] { assert StageOk(s, s.tasks[u]); }
    }
  }

  /** Requests leave running operations alone. */
  lemma RequestsLeaveOperations(s: State, e: Event)
    requires RequestEvent(e) && CanRequest(s, e)
    ensures var s' := RequestStep(s, e);
            s'.servers == s.servers && forall u <- s.tasks :: s.tasks[u].Operating? ==> u in s'.tasks && s'.tasks[u] == s.tasks[u]
  {
  }

  /** So do leases. */
  lemma OperationsStay(s: State, e: Event)
    requires !OperationEvent(e) && CanHappen(s, e)
    ensures var s' := Step(s, e);
            s'.servers == s.servers && forall u <- s.tasks :: s.tasks[u].Operating? ==> u in s'.tasks && s'.tasks[u] == s.tasks[u]
  {
    if RequestEvent(e) { RequestsLeaveOperations(s, e); }
  }

  lemma EnterKeepsServers(s: State, e: Event)
    requires ServersOk(s) && (e.StartEnter? || e.ShutEnter?) && CanOperate(s, e)
    ensures ServersOk(OperationStep(s, e))
  {
    var s' := OperationStep(s, e);
    OperationKeepsLife(s, e);
    NoOperation(s);
    forall v | v in s'.servers && !s'.servers[v].Exited? ensures Owned(s', v) {
      assert Owned(s, v);
      if e.StartEnter? { assert ServerOf(s'.tasks[e.task]) == Some(v); }
    }
    forall u | u in s'.tasks ensures StageOk(s', s'.tasks[u]) {
      if u != e.task { assert StageOk(s, s.tasks[u]); }
    }
  }

  /** With the operation lock free nobody operates. */
  lemma NoOperation(s: State)
    requires LifeOk(s) && s.operation.None?
    ensures forall t <- s.tasks :: !s.tasks[t].Operating? && ServerOf(s.tasks[t]).None?
  {
  }

  /** Whoever operates is the only one. */
  lemma OneOperation(s: State, t: TaskId)
    requires LifeOk(s) && t in s.tasks && s.tasks[t].Operating?
    ensures forall u <- s.tasks :: u != t ==> !s.tasks[u].Operating? && ServerOf(s.tasks[u]).None?
  {
  }

  lemma AdvanceKeepsServers(s: State, t: TaskId)
    requires ServersOk(s) && CanAdvance(s, t)
    ensures ServersOk(OnAdvance(s, t))
  {
    var s' := OnAdvance(s, t);
    AdvanceKeepsLife(s, t);
    OneOperation(s, t);
    assert StageOk(s, s.tasks[t]);
    assert OpOk(s, s.tasks[t]);
    forall v | v in s'.servers && !s'.servers[v].Exited? ensures Owned(s', v) {
      assert Owned(s, v);
      if t in s'.tasks && ServerOf(s'.tasks[t]) == Some(v) { assert Owned(s', v); }
    }
    forall u | u in s'.tasks ensures StageOk(s', s'.tasks[u]) {
      if u != t { assert StageOk(s, s.tasks[u]); }
    }
  }

  lemma BindKeepsServers(s: State, e: Event)
    requires ServersOk(s) && (e.BindOk? || e.BindFails?) && CanOperate(s, e)
    ensures ServersOk(OperationStep(s, e))
  {
    var s' := OperationStep(s, e);
    OperationKeepsLife(s, e);
    OneOperation(s, e.task);
    assert StageOk(s, s.tasks[e.task]);
    forall v | v in s'.servers && !s'.servers[v].Exited? ensures Owned(s', v) {
      if e.BindOk? && v == e.server { assert ServerOf(s'.tasks[e.task]) == Some(v); } else { assert Owned(s, v); }
    }
    forall u | u in s'.tasks ensures StageOk(s', s'.tasks[u]) {
      if u != e.task { assert StageOk(s, s.tasks[u]); }
    }
  }

  lemma ServerStepKeepsServers(s: State, e: Event)
    requires ServersOk(s) && (e.ServerBreaks? || e.ServerReports? || e.ServerStops?) && CanOperate(s, e)
    ensures ServersOk(OperationStep(s, e))
  {
    var s' := OperationStep(s, e);
    OperationKeepsLife(s, e);
    forall v | v in s'.servers && !s'.servers[v].Exited? ensures Owned(s', v) {
      assert Owned(s, v);
      if s.life.server != Some(v) {
        var u :| u in s.tasks && ServerOf(s.tasks[u]) == Some(v);
        assert ServerOf(s'.tasks[u]) == Some(v);
      }
    }
    forall u | u in s'.tasks ensures StageOk(s', s'.tasks[u]) { assert StageOk(s, s.tasks[u]); }
  }

  lemma StepKeepsServers(s: State, e: Event)
    requires ServersOk(s)
    ensures ServersOk(Step(s, e))
  {
    if CanHappen(s, e) {
      if !OperationEvent(e) {
        StepKeepsLife(s, e);
        OperationsStay(s, e);
        if LeaseEvent(e) { LeaseFrame(s, e); } else { RequestFrame(s, e); RequestTasks(s, e); }
        QuietKeepsServers(s, Step(s, e), Actor(e));
      } else if e.StartEnter? || e.ShutEnter? {
        EnterKeepsServers(s, e);
      } else if e.Advance? {
        AdvanceKeepsServers(s, e.task);
      } else if e.BindOk? || e.BindFails? {
        BindKeepsServers(s, e);
      } else {
        ServerStepKeepsServers(s, e);
      }
    }
  }

  lemma {:induction false} RunKeepsServers(es: seq<Event>)
    ensures ServersOk(Run(es))
  {
    if es != [] {
      RunKeepsServers(es[..|es| - 1]);
      StepKeepsServers(Run(es[..|es| - 1]), es[|es| - 1]);
    }
  }

  /** Through starts, shutdowns and failures, in every interleaving, at most one server task
      has not exited. */
  lemma NeverTwoServers(es: seq<Event>, a: ServerId, b: ServerId)
    requires a in Run(es).servers && b in Run(es).servers && !Run(es).servers[a].Exited? && !Run(es).servers[b].Exited?
    ensures a == b
  {
    var s := Run(es);
    RunKeepsServers(es);
    assert Owned(s, a) && Owned(s, b);
    if t :| t in s.tasks && ServerOf(s.tasks[t]).Some? {
      OneOperation(s, t);
      assert StageOk(s, s.tasks[t]);
    }
  }

  /** A shutdown that has finished leaves no server behind. */
  lemma StoppedLeavesNoServer(es: seq<Event>, v: ServerId)
    requires Run(es).life.phase.Stopped? && Run(es).operation.None? && v in Run(es).servers
    ensures Run(es).servers[v].Exited?
  {
    RunKeepsServers(es);
    NoOperation(Run(es));
    assert !Run(es).servers[v].Exited? ==> Owned(Run(es), v);
  }

  /** An operation never waits for a server that has not been told to stop. */
  lemma WaitsForStoppingOnly(es: seq<Event>, t: TaskId, v: ServerId)
    requires t in Run(es).tasks && Run(es).tasks[t].Operating? && Run(es).tasks[t].stage == Join(Some(v)) && v in Run(es).servers
    ensures Run(es).servers[v] != Serving(false)
  {
    RunKeepsServers(es);
    assert StageOk(Run(es), Run(es).tasks[t]);
  }

  /** Starting a gateway that runs or is starting changes nothing. */
  lemma StartWhileRunningIsIdle(s: State, t: TaskId)
    requires s.life.phase.Running? || s.life.phase.Starting?
    ensures Step(s, StartEnter(t)) == s
  {
  }

  // ---------------------------------------------------------------- names of leases

  predicate NamedClient(c: Client) { c.engine != "" && c.instance != "" && c.generation >= 1 }

  /** Every lease, in the table, on its way there or with a request, names its engine and
      instance and is of a generation that has run. */
  ghost predicate NamesOk(s: State) {
    && (s.life.phase.Running? ==> s.life.generation >= 1)
    && (forall token <- s.clients :: NamedClient(s.clients[token]))
    && (forall t <- s.tasks ::
          match s.tasks[t]
          case Registering(engine, instance, generation) => engine != "" && instance != "" && generation >= 1
          case Resolved(_, client) => NamedClient(client)
          case Ready(_, client) => NamedClient(client)
          case _ => true)
  }

  lemma LeaseKeepsNames(s: State, e: Event)
    requires NamesOk(s) && LeaseEvent(e) && CanLease(s, e)
    ensures NamesOk(LeaseStep(s, e))
  {
  }

  lemma CheckingKeepsNames(s: State, e: Event)
    requires NamesOk(s) && (e.Resolve? || e.Check?) && CanRequest(s, e)
    ensures NamesOk(RequestStep(s, e))
  {
  }

  lemma RequestKeepsNames(s: State, e: Event)
    requires NamesOk(s) && RequestEvent(e) && CanRequest(s, e)
    ensures NamesOk(RequestStep(s, e))
  {
    if e.Resolve? || e.Check? {
      CheckingKeepsNames(s, e);
    } else {
      RequestFrame(s, e);
      assert forall u <- RequestStep(s, e).tasks :: u in s.tasks && RequestStep(s, e).tasks[u] == s.tasks[u];
    }
  }

  lemma OperationKeepsNames(s: State, e: Event)
    requires NamesOk(s) && OperationEvent(e) && CanOperate(s, e)
    ensures NamesOk(OperationStep(s, e))
  {
  }

  /** No registration without both names, none while the gateway has never run. */
  lemma {:induction false} LeasesAreNamed(es: seq<Event>)
    ensures NamesOk(Run(es))
  {
    if es != [] {
      var s, e := Run(es[..|es| - 1]), es[|es| - 1];
      LeasesAreNamed(es[..|es| - 1]);
      if CanHappen(s, e) {
        if OperationEvent(e) { OperationKeepsNames(s, e); } else if LeaseEvent(e) { LeaseKeepsNames(s, e); } else { RequestKeepsNames(s, e); }
      }
    }
  }

  /** A registration begins exactly while running and fully named. */
  lemma RegistrationBeginsIff(s: State, t: TaskId, engine: string, instance: string)
    requires t !in s.tasks
    ensures t in Step(s, RegisterRead(t, engine, instance)).tasks <==> engine != "" && instance != "" && s.life.phase.Running?
  {
  }

  /** A session made under a lease lets later requests of that lease pass, and no others. */
  lemma SessionIsItsLeases(s: State, t: TaskId, session: SessionId, u: TaskId)
    requires t in s.tasks && s.tasks[t].Ready? && session !in s.sessions && u in s.tasks && s.tasks[u].Ready? && u != t
    ensures var s' := Step(s, Initialize(t, session));
            && u in s'.tasks && s'.tasks[u] == s.tasks[u]
            && (u in Step(s', CheckSession(u, session)).tasks <==> s.tasks[u].token == s.tasks[t].token)
  {
  }

  /** A server may break at any time while it serves: having reported it, the gateway has
      failed and has no address, and no request passes. */
  lemma BrokenServerFailsGateway(s: State, v: ServerId, t: TaskId)
    requires v in s.servers && s.servers[v] == Serving(false) && t in s.tasks && s.tasks[t].Resolved?
    ensures var s' := Step(Step(s, ServerBreaks(v)), ServerReports(v));
            && s'.life == s.life.(phase := Failed, addr := None) && s'.servers == s.servers[v := Exited]
            && !Passes(s', t)
  {
  }

  /** A lease may get a new context at any time; all else about it stays. */
  lemma ContextCanChange(s: State, token: Token, context: Option<Context>)
    requires token in s.clients
    ensures Step(s, SetContext(token, context)) == s.(clients := s.clients[token := s.clients[token].(context := context)])
  {
  }
}
