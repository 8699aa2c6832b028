/** Lease and generation safety of the gateway, over every interleaving of its critical
    sections. */
module GatewayLeases {
  import opened Wrappers
  import opened RpcIds
  import opened Gateway

  // ---------------------------------------------------------------- lifecycle

  /** One operation at a time, and an address exactly while running. */
  ghost predicate LifeOk(s: State) {
    && (s.life.phase.Running? <==> s.life.addr.Some?)
    && (forall t <- s.tasks :: s.tasks[t].Operating? ==> s.operation == Some(t) && OpOk(s, s.tasks[t]))
  }

  /** Past its first section, a start or shutdown keeps the address cleared; only a start
      binds, and only a shutdown settles. Nothing runs while a stopped gateway is shut down. */
  predicate OpOk(s: State, task: Task)
    requires task.Operating?
  {
    && (task.stage.Take? || task.stage.Settle? ==> task.op.Shuts?)
    && (task.op.ShutsStopped? ==> !s.life.phase.Running?)
    && (task.stage.Bind? || task.stage.Commit? ==> task.op.Starts?)
    && (task.op.ShutsStopped? || task.stage.Take? || s.life.addr.None?)
  }

  lemma AdvanceKeepsLife(s: State, t: TaskId)
    requires LifeOk(s) && CanAdvance(s, t)
    ensures LifeOk(OnAdvance(s, t))
  {
    var s' := OnAdvance(s, t);
    assert OpOk(s, s.tasks[t]);
    forall u | u in s'.tasks && s'.tasks[u].Operating? ensures s'.operation == Some(u) && OpOk(s', s'.tasks[u]) {
      assert s.operation == Some(u);
    }
  }

  lemma OperationKeepsLife(s: State, e: Event)
    requires LifeOk(s) && OperationEvent(e) && CanOperate(s, e)
    ensures LifeOk(OperationStep(s, e))
  {
    if e.Advance? {
      AdvanceKeepsLife(s, e.task);
    } else if e.BindFails? || e.BindOk? {
      assert OpOk(s, s.tasks[e.task]);
    }
  }

  /** Steps that leave the lifecycle alone and start no operation. */
  lemma QuietKeepsLife(s: State, s': State, t: Option<TaskId>)
    requires LifeOk(s) && s'.life == s.life && s'.operation == s.operation && OnlyTask(s, s', t)
    requires forall u :: u in s'.tasks && t == Some(u) ==> !s'.tasks[u].Operating?
    ensures LifeOk(s')
  {
    forall u | u in s'.tasks && s'.tasks[u].Operating? ensures s'.operation == Some(u) && OpOk(s', s'.tasks[u]) {
      assert OpOk(s, s.tasks[u]);
    }
  }

  lemma StepKeepsLife(s: State, e: Event)
    requires LifeOk(s)
    ensures LifeOk(Step(s, e))
  {
    if CanHappen(s, e) {
      if OperationEvent(e) {
        OperationKeepsLife(s, e);
      } else if LeaseEvent(e) {
        LeaseFrame(s, e);
        QuietKeepsLife(s, LeaseStep(s, e), Actor(e));
      } else {
        RequestFrame(s, e);
        RequestTasks(s, e);
        QuietKeepsLife(s, RequestStep(s, e), Actor(e));
      }
    }
  }

  /** Running holds exactly when a local address is set, in every reachable state. */
  lemma {:induction false} RunningIffAddress(es: seq<Event>)
    ensures LifeOk(Run(es))
  {
    if es != [] {
      RunningIffAddress(es[..|es| - 1]);
      StepKeepsLife(Run(es[..|es| - 1]), es[|es| - 1]);
    }
  }

  // ------------------------------------------------------------------- leases

  predicate Known(s: State, token: Token, client: Client) {
    token in s.issued && s.issued[token] == client.generation && TokenText(token)
  }

  predicate TaskLeaseOk(s: State, task: Task) {
    match task
    case Registering(_, _, generation) => generation <= s.life.generation
    case Resolved(token, client) => Known(s, token, client)
    case Ready(token, client) => Known(s, token, client)
    case _ => true
  }

  ghost predicate OneLeasePerInstance(clients: map<Token, Client>) {
    forall t, u :: t in clients && u in clients && clients[t].engine == clients[u].engine && clients[t].instance == clients[u].instance ==> t == u
  }

  /** At most one lease per engine instance; every lease in the table or held by a
      request is the one issued for its token, and no issued generation is ahead. */
  ghost predicate LeasesOk(s: State) {
    && OneLeasePerInstance(s.clients)
    && (forall token <- s.clients :: Known(s, token, s.clients[token]))
    && (forall token <- s.issued :: s.issued[token] <= s.life.generation)
    && (forall t <- s.tasks :: TaskLeaseOk(s, s.tasks[t]))
  }

  /** Generations only grow, and what has been issued for a token never changes. */
  ghost predicate Grows(s: State, s': State) {
    && s.life.generation <= s'.life.generation
    && (forall token <- s.issued :: token in s'.issued && s'.issued[token] == s.issued[token])
  }

  lemma StepGrows(s: State, e: Event)
    ensures Grows(s, Step(s, e))
  {
    if CanHappen(s, e) {
      if OperationEvent(e) {
        OperationFrame(s, e);
      } else if LeaseEvent(e) {
        LeaseFrame(s, e);
      } else {
        RequestFrame(s, e);
      }
    }
  }

  lemma TaskStaysOk(s: State, s': State, task: Task)
    requires Grows(s, s') && TaskLeaseOk(s, task)
    ensures TaskLeaseOk(s', task)
  {
  }

  lemma InsertKeepsTable(s: State, t: TaskId, token: Token)
    requires LeasesOk(s) && CanLease(s, RegisterInsert(t, token))
    ensures var s' := OnRegisterInsert(s, t, token);
            OneLeasePerInstance(s'.clients) && forall u <- s'.clients :: Known(s', u, s'.clients[u])
  {
    assert TaskLeaseOk(s, s.tasks[t]);
  }

  lemma InsertKeepsLeases(s: State, t: TaskId, token: Token)
    requires LeasesOk(s) && CanLease(s, RegisterInsert(t, token))
    ensures LeasesOk(OnRegisterInsert(s, t, token))
  {
    var s' := OnRegisterInsert(s, t, token);
    InsertKeepsTable(s, t, token);
    assert TaskLeaseOk(s, s.tasks[t]);
    forall u | u in s'.tasks ensures TaskLeaseOk(s', s'.tasks[u]) {
      if u != t { assert TaskLeaseOk(s, s.tasks[u]); TaskStaysOk(s, s', s.tasks[u]); }
    }
  }

  /** Steps that issue nothing: leases only disappear or get a new context, and any task
      that changed speaks of a lease of the table. */
  lemma PlainKeepsLeases(s: State, s': State)
    requires LeasesOk(s) && Grows(s, s') && s'.issued == s.issued
    requires forall u <- s'.clients :: u in s.clients && s'.clients[u] == s.clients[u].(context := s'.clients[u].context)
    requires forall u <- s'.tasks :: (u in s.tasks && s'.tasks[u] == s.tasks[u]) || TaskLeaseOk(s', s'.tasks[u])
    ensures LeasesOk(s')
  {
    forall u | u in s'.tasks ensures TaskLeaseOk(s', s'.tasks[u]) {
      if u in s.tasks && s'.tasks[u] == s.tasks[u] { assert TaskLeaseOk(s, s.tasks[u]); TaskStaysOk(s, s', s.tasks[u]); }
    }
  }

  lemma LeaseStepKeepsLeases(s: State, e: Event)
    requires LeasesOk(s) && LeaseEvent(e) && CanLease(s, e)
    ensures LeasesOk(LeaseStep(s, e))
  {
    LeaseFrame(s, e);
    if e.RegisterInsert? {
      InsertKeepsLeases(s, e.task, e.token);
    } else {
      PlainKeepsLeases(s, LeaseStep(s, e));
    }
  }

  lemma RequestStepKeepsLeases(s: State, e: Event)
    requires LeasesOk(s) && RequestEvent(e) && CanRequest(s, e)
    ensures LeasesOk(RequestStep(s, e))
  {
    RequestFrame(s, e);
    RequestTasks(s, e);
    if e.Check? { assert TaskLeaseOk(s, s.tasks[e.task]); }
    PlainKeepsLeases(s, RequestStep(s, e));
  }

  lemma StepKeepsLeases(s: State, e: Event)
    requires LeasesOk(s)
    ensures LeasesOk(Step(s, e))
  {
    if CanHappen(s, e) {
      if OperationEvent(e) {
        OperationFrame(s, e);
        PlainKeepsLeases(s, OperationStep(s, e));
      } else if LeaseEvent(e) {
        LeaseStepKeepsLeases(s, e);
      } else {
        RequestStepKeepsLeases(s, e);
      }
    }
  }

  /** In every reachable state no engine instance has two leases. */
  lemma {:induction false} RunKeepsLeases(es: seq<Event>)
    ensures LeasesOk(Run(es))
  {
    if es != [] {
      RunKeepsLeases(es[..|es| - 1]);
      StepKeepsLeases(Run(es[..|es| - 1]), es[|es| - 1]);
    }
  }

  // ------------------------------------------------------------ stale leases

  lemma {:induction false} RunGrows(s: State, es: seq<Event>)
    ensures Grows(s, RunFrom(s, es))
  {
    if es != [] {
      RunGrows(s, es[..|es| - 1]);
      StepGrows(RunFrom(s, es[..|es| - 1]), es[|es| - 1]);
    }
  }

  lemma {:induction false} RunFromKeepsLeases(s: State, es: seq<Event>)
    requires LeasesOk(s)
    ensures LeasesOk(RunFrom(s, es))
  {
    if es != [] {
      RunFromKeepsLeases(s, es[..|es| - 1]);
      StepKeepsLeases(RunFrom(s, es[..|es| - 1]), es[|es| - 1]);
    }
  }

  /** Issued once, and no longer in the table. */
  predicate Dead(s: State, token: Token) { token in s.issued && token !in s.clients }

  /** A token that has left the table is never a lease again. */
  lemma DeadStaysDead(s: State, e: Event, token: Token)
    requires Dead(s, token)
    ensures Dead(Step(s, e), token)
  {
    StepGrows(s, e);
    if CanHappen(s, e) {
      if OperationEvent(e) {
        OperationFrame(s, e);
      } else if LeaseEvent(e) {
      } else {
        RequestFrame(s, e);
      }
    }
  }

  /** The request's lease passes both lifecycle checks. */
  predicate Passes(s: State, t: TaskId) {
    CanHappen(s, Check(t)) && t in Step(s, Check(t)).tasks
  }

  /** A request passes only while running and with the generation its token was issued for. */
  lemma PassesOnlyCurrent(es: seq<Event>, t: TaskId)
    requires Passes(Run(es), t)
    ensures var s := Run(es); s.life.phase.Running? && s.tasks[t].token in s.issued && s.issued[s.tasks[t].token] == s.life.generation
  {
    RunKeepsLeases(es);
    assert TaskLeaseOk(Run(es), Run(es).tasks[t]);
  }

  /** A token issued for a generation already passed is refused for ever. */
  lemma StaleTokenNeverPasses(s: State, es: seq<Event>, token: Token, t: TaskId)
    requires LeasesOk(s) && token in s.issued && s.issued[token] < s.life.generation
    requires Passes(RunFrom(s, es), t)
    ensures RunFrom(s, es).tasks[t].token != token
  {
    RunGrows(s, es);
    RunFromKeepsLeases(s, es);
    assert TaskLeaseOk(RunFrom(s, es), RunFrom(s, es).tasks[t]);
  }

  predicate StartCommits(s: State, e: Event) {
    e.Advance? && CanHappen(s, e) && s.tasks[e.task].stage.Commit?
  }

  /** Committing a start makes every lease issued or being registered so far stale. */
  lemma CommitStalesEverything(s: State, e: Event)
    requires LeasesOk(s) && StartCommits(s, e)
    ensures var s' := Step(s, e);
            && (forall token <- s.issued :: token in s'.issued && s'.issued[token] < s'.life.generation)
            && (forall r <- s'.tasks :: s'.tasks[r].Registering? ==> s'.tasks[r].generation < s'.life.generation)
  {
    var s' := Step(s, e);
    OperationFrame(s, e);
    forall r | r in s'.tasks && s'.tasks[r].Registering? ensures s'.tasks[r].generation < s'.life.generation {
      assert TaskLeaseOk(s, s.tasks[r]);
    }
  }

  lemma LateInsertIsStale(s: State, r: TaskId, token: Token)
    requires LeasesOk(s) && CanHappen(s, RegisterInsert(r, token)) && s.tasks[r].generation < s.life.generation
    ensures var s' := Step(s, RegisterInsert(r, token)); LeasesOk(s') && token in s'.issued && s'.issued[token] < s'.life.generation
  {
    StepKeepsLeases(s, RegisterInsert(r, token));
  }

  /** Whatever registration read its generation before a restart: the token it inserts
      afterwards, however late, is never accepted. */
  lemma LateInsertNeverPasses(s0: State, e: Event, es1: seq<Event>, r: TaskId, token: Token, es2: seq<Event>, t: TaskId)
    requires LeasesOk(s0) && StartCommits(s0, e) && r in s0.tasks && s0.tasks[r].Registering?
    requires var s1 := RunFrom(Step(s0, e), es1); r in s1.tasks && s1.tasks[r] == s0.tasks[r] && CanHappen(s1, RegisterInsert(r, token))
    requires var s2 := Step(RunFrom(Step(s0, e), es1), RegisterInsert(r, token)); Passes(RunFrom(s2, es2), t)
    ensures var s2 := Step(RunFrom(Step(s0, e), es1), RegisterInsert(r, token)); RunFrom(s2, es2).tasks[t].token != token
  {
    var s' := Step(s0, e);
    var s1 := RunFrom(s', es1);
    StepKeepsLeases(s0, e);
    assert s0.tasks[r].generation < s'.life.generation by { assert TaskLeaseOk(s0, s0.tasks[r]); }
    RunFromKeepsLeases(s', es1);
    RunGrows(s', es1);
    LateInsertIsStale(s1, r, token);
    StaleTokenNeverPasses(Step(s1, RegisterInsert(r, token)), es2, token, t);
  }
}
