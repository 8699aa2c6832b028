/** The gateway as it runs: whole registrations, revocations, starts, shutdowns and requests,
    one at a time, over lock-guarded tables updated in place. `Gateway` has the same section
    by section, with every interleaving. What sockets and server tasks do is a parameter. */
module GatewayServer {
  import opened Wrappers
  import opened RpcIds
  import opened Gateway
  import opened GatewayLeases
  import opened GatewayCalls

  /** A state some run leads to. */
  ghost predicate Reachable(s: State) { exists es :: s == Run(es) }

  lemma ReachableStep(s: State, e: Event)
    requires Reachable(s)
    ensures Reachable(Step(s, e))
  {
    var es :| s == Run(es);
    assert (es + [e])[..|es + [e]| - 1] == es;
    assert Step(s, e) == Run(es + [e]);
  }

  lemma ReachableOk(s: State)
    requires Reachable(s)
    ensures LeasesOk(s) && EntriesOk(s)
  {
    var es :| s == Run(es);
    RunKeepsLeases(es);
    EveryCallTrackedOrCancelled(es);
  }

  // ------------------------------------------------------- where one section leads

  lemma ReadReaches(s: State, t: TaskId, engine: string, instance: string)
    requires Reachable(s) && t !in s.tasks && engine != "" && instance != "" && s.life.phase.Running?
    ensures Reachable(s.(tasks := s.tasks[t := Registering(engine, instance, s.life.generation)]))
  {
    ReachableStep(s, RegisterRead(t, engine, instance));
  }

  lemma InsertReaches(s: State, t: TaskId, token: Token)
    requires Reachable(s) && t in s.tasks && s.tasks[t].Registering? && token !in s.issued && TokenText(token)
    ensures Reachable(OnRegisterInsert(s, t, token))
  {
    ReachableStep(s, RegisterInsert(t, token));
  }

  lemma RevokeReaches(s: State, t: TaskId, token: Token)
    requires Reachable(s) && t !in s.tasks && token in s.clients
    ensures Reachable(s.(clients := s.clients - {token}, tasks := s.tasks[t := PurgingSessions({token})]))
  {
    ReachableStep(s, RevokeRemove(t, token));
  }

  lemma PurgeSessionsReaches(s: State, t: TaskId)
    requires Reachable(s) && t in s.tasks && s.tasks[t].PurgingSessions?
    ensures Reachable(OnPurgeSessions(s, t))
  {
    ReachableStep(s, PurgeSessions(t));
  }

  lemma PurgeCallsReaches(s: State, t: TaskId)
    requires Reachable(s) && t in s.tasks && s.tasks[t].PurgingCalls?
    ensures Reachable(OnPurgeCalls(s, t))
  {
    ReachableStep(s, PurgeCalls(t));
  }

  lemma StartEnterReaches(s: State, t: TaskId)
    requires Reachable(s) && s.tasks == map[] && s.operation.None? && !s.life.phase.Running? && !s.life.phase.Starting?
    ensures Reachable(s.(operation := Some(t), life := s.life.(phase := Starting, addr := None, server := None),
                         tasks := map[t := Operating(Starts, Cancel(s.life.server))]))
  {
    ReachableStep(s, StartEnter(t));
  }

  lemma ShutEnterReaches(s: State, t: TaskId)
    requires Reachable(s) && s.tasks == map[] && s.operation.None?
    ensures s.life.phase.Stopped? ==> Reachable(s.(operation := Some(t), tasks := map[t := Operating(ShutsStopped, ClearClients)]))
    ensures !s.life.phase.Stopped? ==> Reachable(s.(operation := Some(t), tasks := map[t := Operating(Shuts, Take)]))
  {
    ReachableStep(s, ShutEnter(t));
  }

  /** The sections of a start or shutdown that touch the lifecycle or the server only. */
  lemma AdvanceReaches(s: State, t: TaskId, op: Op, stage: OpStage)
    requires Reachable(s) && s.tasks == map[t := Operating(op, stage)] && CanAdvance(s, t)
    requires stage.Take? || stage.Cancel? || stage.Join? || stage.Settle? || stage.Commit?
    ensures var next := NextStage(s, op, stage);
            Reachable(s.(life := LifeAfter(s.life, op, stage), servers := ServersAfter(s.servers, stage),
                         operation := if next.Some? then s.operation else None,
                         tasks := if next.Some? then map[t := Operating(op, next.value)] else map[]))
  {
    ReachableStep(s, Advance(t));
    assert s.tasks - {t} == map[];
  }

  lemma ClearClientsReaches(s: State, t: TaskId, op: Op)
    requires Reachable(s) && s.tasks == map[t := Operating(op, ClearClients)]
    ensures Reachable(s.(clients := map[], tasks := map[t := Operating(op, ClearSessions)]))
  {
    ReachableStep(s, Advance(t));
  }

  lemma ClearSessionsReaches(s: State, t: TaskId, op: Op)
    requires Reachable(s) && s.tasks == map[t := Operating(op, ClearSessions)]
    ensures Reachable(s.(sessions := map[], tasks := map[t := Operating(op, Drain)]))
  {
    ReachableStep(s, Advance(t));
  }

  function Drained(s: State, t: TaskId, op: Op): State {
    s.(active := map[], cancelled := s.cancelled + TrackedCalls(s.active),
       operation := if op.ShutsStopped? then None else s.operation,
       tasks := if op.Starts? then map[t := Operating(op, Bind)] else if op.Shuts? then map[t := Operating(op, Settle)] else map[])
  }

  lemma DrainReaches(s: State, t: TaskId, op: Op)
    requires Reachable(s) && s.tasks == map[t := Operating(op, Drain)]
    ensures Reachable(Drained(s, t, op))
  {
    ReachableStep(s, Advance(t));
    assert s.tasks - {t} == map[];
  }

  lemma BindReaches(s: State, t: TaskId, listener: ServerId, addr: nat)
    requires Reachable(s) && s.tasks == map[t := Operating(Starts, Bind)]
    ensures Reachable(s.(life := s.life.(phase := Failed), operation := None, tasks := map[]))
    ensures listener !in s.servers ==>
              Reachable(s.(servers := s.servers[listener := Serving(false)], tasks := map[t := Operating(Starts, Commit(listener, addr))]))
  {
    ReachableStep(s, BindFails(t));
    ReachableStep(s, BindOk(t, listener, addr));
    assert s.tasks - {t} == map[];
  }

  lemma ServerReaches(s: State, server: ServerId)
    requires Reachable(s) && server in s.servers
    ensures s.servers[server].Reporting? ==>
              Reachable(s.(servers := s.servers[server := Exited], life := s.life.(phase := Failed, addr := None)))
    ensures s.servers[server] == Serving(true) ==> Reachable(s.(servers := s.servers[server := Exited]))
  {
    ReachableStep(s, ServerReports(server));
    ReachableStep(s, ServerStops(server));
  }

  lemma ResolveReaches(s: State, t: TaskId, token: Token)
    requires Reachable(s) && t !in s.tasks && token in s.clients
    ensures Reachable(s.(tasks := s.tasks[t := Resolved(token, s.clients[token])]))
  {
    ReachableStep(s, Resolve(t, token));
  }

  lemma CheckReaches(s: State, t: TaskId)
    requires Reachable(s) && t in s.tasks && s.tasks[t].Resolved?
    ensures Reachable(OnCheck(s, t))
  {
    ReachableStep(s, Check(t));
  }

  lemma SessionReaches(s: State, t: TaskId, session: SessionId)
    requires Reachable(s) && t in s.tasks && s.tasks[t].Ready?
    ensures !(session in s.sessions && s.sessions[session] == s.tasks[t].token) ==> Reachable(EndTask(s, t))
  {
    ReachableStep(s, CheckSession(t, session));
  }

  lemma NoteReaches(s: State, t: TaskId, id: RpcId)
    requires Reachable(s) && t in s.tasks && s.tasks[t].Ready?
    ensures Reachable(OnCancelNote(s, t, id))
  {
    ReachableStep(s, CancelNote(t, id));
  }

  lemma BeginReaches(s: State, t: TaskId, id: RpcId, call: CallId)
    requires Reachable(s) && t in s.tasks && s.tasks[t].Ready? && FreshCall(s, call)
    ensures Reachable(OnBeginCall(s, t, id, call))
  {
    ReachableStep(s, BeginCall(t, id, call));
  }

  // ------------------------------------------------------------------ the gateway

  datatype Outcome = Unauthenticated | NotReady | BadSession | NoContext | Done

  class Server {
    var life: Life
    var servers: map<ServerId, Gateway.Server>
    ghost var operation: Option<TaskId>
    var clients: map<Token, Client>
    var sessions: map<SessionId, Token>
    var active: map<string, (Token, CallId)>
    var cancelled: set<CallId>
    ghost var calls: map<CallId, Call>
    ghost var tasks: map<TaskId, Task>
    ghost var issued: map<Token, nat>

    ghost function Now(): State
      reads this
    {
      State(life, servers, operation, clients, sessions, active, cancelled, calls, tasks, issued)
    }

    /** In a reachable state, with nothing under way. */
    ghost predicate Valid()
      reads this
    {
      Reachable(Now()) && tasks == map[] && operation.None?
    }

    constructor ()
      ensures Valid() && life.phase.Stopped? && clients == map[] && active == map[]
    {
      life, servers, operation := Life(Stopped, 0, None, None), map[], None;
      clients, sessions, active, cancelled := map[], map[], map[], {};
      calls, tasks, issued := map[], map[], map[];
      new;
      assert Now() == Run([]);
    }

    // ------------------------------------------------------------------- leases

    /** `register`: refused unless running and fully named; otherwise the new lease takes the
        place of those of the same instance, whose sessions go and whose tracked calls are
        cancelled, and nothing else is touched. */
    method Register(engine: string, instance: string, token: Token) returns (generation: Option<nat>)
      requires Valid() && token !in issued && TokenText(token)
      modifies this
      ensures Valid() && life == old(life) && active == old(active) && calls == old(calls)
      ensures generation == if engine != "" && instance != "" && life.phase.Running? then Some(life.generation) else None
      ensures generation.None? ==> Now() == old(Now())
      ensures generation.Some? ==>
                var replaced := LeasesOf(old(clients), engine, instance);
                && clients == (old(clients) - replaced)[token := Client(engine, instance, generation.value, None)]
                && sessions == (map k | k in old(sessions) && old(sessions)[k] !in replaced :: old(sessions)[k])
                && cancelled == old(cancelled) + CallsOf(active, replaced)
    {
      if engine == "" || instance == "" || !life.phase.Running? {
        return None;
      }
      ReadReaches(Now(), 0, engine, instance);
      tasks := map[0 := Registering(engine, instance, life.generation)];
      generation := Some(life.generation);
      var replaced := InsertLease(0, engine, instance, life.generation, token);
      if replaced != {} {
        Purge(0, replaced);
      } else {
        NothingToPurge(sessions, active);
      }
    }

    /** Drops the leases of the same instance and inserts the new one. */
    method InsertLease(ghost t: TaskId, engine: string, instance: string, generation: nat, token: Token) returns (replaced: set<Token>)
      requires Reachable(Now()) && tasks == map[t := Registering(engine, instance, generation)] && token !in issued && TokenText(token)
      modifies this`clients, this`issued, this`tasks
      ensures Reachable(Now()) && replaced == LeasesOf(old(clients), engine, instance)
      ensures clients == (old(clients) - replaced)[token := Client(engine, instance, generation, None)]
      ensures tasks == if replaced == {} then map[] else map[t := PurgingSessions(replaced)]
    {
      replaced := {};
      var rest := clients.Keys;
      while rest != {}
        invariant rest <= clients.Keys
        invariant replaced == LeasesOf(clients, engine, instance) - rest
      {
        var u :| u in rest;
        if clients[u].engine == engine && clients[u].instance == instance {
          replaced := replaced + {u};
        }
        rest := rest - {u};
      }
      assert replaced == LeasesOf(clients, engine, instance);
      InsertReaches(Now(), t, token);
      clients := (clients - replaced)[token := Client(engine, instance, generation, None)];
      issued := issued[token := generation];
      tasks := if replaced == {} then tasks - {t} else tasks[t := PurgingSessions(replaced)];
    }

    /** Drops the sessions of revoked or replaced leases, and cancels their tracked calls. */
    method Purge(ghost t: TaskId, tokens: set<Token>)
      requires Reachable(Now()) && tasks == map[t := PurgingSessions(tokens)]
      modifies this`sessions, this`cancelled, this`tasks
      ensures Reachable(Now()) && tasks == map[]
      ensures sessions == map k | k in old(sessions) && old(sessions)[k] !in tokens :: old(sessions)[k]
      ensures cancelled == old(cancelled) + CallsOf(active, tokens)
    {
      PurgeSessionsReaches(Now(), t);
      DropSessions(tokens);
      tasks := tasks[t := PurgingCalls(tokens)];
      PurgeCallsReaches(Now(), t);
      CancelCalls(tokens);
      tasks := tasks - {t};
    }

    method DropSessions(tokens: set<Token>)
      modifies this`sessions
      ensures sessions == map k | k in old(sessions) && old(sessions)[k] !in tokens :: old(sessions)[k]
    {
      var rest := sessions.Keys;
      ghost var all := sessions;
      while rest != {}
        invariant rest <= all.Keys
        invariant forall k <- all :: k in sessions <==> k in rest || all[k] !in tokens
        invariant forall k <- sessions :: k in all && sessions[k] == all[k]
      {
        var k :| k in rest;
        if k in sessions && sessions[k] in tokens {
          sessions := sessions - {k};
        }
        rest := rest - {k};
      }
    }

    method CancelCalls(tokens: set<Token>)
      modifies this`cancelled
      ensures cancelled == old(cancelled) + CallsOf(active, tokens)
    {
      var rest := active.Keys;
      ghost var before := cancelled;
      while rest != {}
        invariant rest <= active.Keys
        invariant cancelled == before + set key | key in active && key !in rest && active[key].0 in tokens :: active[key].1
      {
        var key :| key in rest;
        if active[key].0 in tokens {
          cancelled := cancelled + {active[key].1};
        }
        rest := rest - {key};
      }
    }

    /** `revoke_client`: the lease and its sessions go, its tracked calls are cancelled, and
        nothing happens for an unknown token. */
    method Revoke(token: Token) returns (removed: bool)
      requires Valid()
      modifies this
      ensures Valid() && life == old(life) && active == old(active) && calls == old(calls)
      ensures removed <==> token in old(clients)
      ensures !removed ==> Now() == old(Now())
      ensures clients == old(clients) - {token}
      ensures removed ==> sessions == (map k | k in old(sessions) && old(sessions)[k] != token :: old(sessions)[k])
      ensures removed ==> cancelled == old(cancelled) + CallsOf(active, {token})
    {
      removed := token in clients;
      if !removed {
        return;
      }
      RevokeReaches(Now(), 0, token);
      clients := clients - {token};
      tasks := map[0 := PurgingSessions({token})];
      Purge(0, {token});
    }

    // --------------------------------------------------------- starts and shutdowns

    /** Tells the old server to stop and waits for its end; it may still have a failure to
        report. */
    method FinishServer(ghost t: TaskId, ghost op: Op, server: Option<ServerId>)
      requires Reachable(Now()) && tasks == map[t := Operating(op, Cancel(server))]
      modifies this`servers, this`life, this`tasks
      ensures Reachable(Now()) && tasks == map[t := Operating(op, ClearClients)]
      ensures servers.Keys == old(servers).Keys
      ensures life == old(life) || life == old(life).(phase := Failed, addr := None)
    {
      StopServer(t, op, server);
      if server.Some? && server.value in servers && !servers[server.value].Exited? {
        EndOfServer(server.value);
      }
      AdvanceReaches(Now(), t, op, Join(server));
      tasks := map[t := Operating(op, ClearClients)];
    }

    method StopServer(ghost t: TaskId, ghost op: Op, server: Option<ServerId>)
      requires Reachable(Now()) && tasks == map[t := Operating(op, Cancel(server))]
      modifies this`servers, this`tasks
      ensures Reachable(Now()) && tasks == map[t := Operating(op, Join(server))]
      ensures servers == ServersAfter(old(servers), Cancel(server))
    {
      AdvanceReaches(Now(), t, op, Cancel(server));
      if server.Some? && server.value in servers && servers[server.value].Serving? {
        servers := servers[server.value := Serving(true)];
      }
      tasks := map[t := Operating(op, Join(server))];
    }

    /** What the world does: a server that was told to stop, or that broke, exits. */
    method EndOfServer(server: ServerId)
      requires Reachable(Now()) && server in servers && (servers[server].Reporting? || servers[server] == Serving(true))
      modifies this`servers, this`life
      ensures Reachable(Now()) && servers == old(servers)[server := Exited]
      ensures life == if old(servers)[server].Reporting? then old(life).(phase := Failed, addr := None) else old(life)
    {
      ServerReaches(Now(), server);
      if servers[server].Reporting? {
        life := life.(phase := Failed, addr := None);
      }
      servers := servers[server := Exited];
    }

    /** Empties the three tables and cancels every tracked call. */
    method ClearTables(ghost t: TaskId, ghost op: Op)
      requires Reachable(Now()) && tasks == map[t := Operating(op, ClearClients)]
      modifies this`clients, this`sessions, this`active, this`cancelled, this`operation, this`tasks
      ensures Reachable(Now()) && clients == map[] && sessions == map[] && active == map[]
      ensures cancelled == old(cancelled) + TrackedCalls(old(active))
      ensures operation == if op.ShutsStopped? then None else old(operation)
      ensures tasks == if op.Starts? then map[t := Operating(op, Bind)] else if op.Shuts? then map[t := Operating(op, Settle)] else map[]
    {
      ClearClientsReaches(Now(), t, op);
      clients := map[];
      tasks := map[t := Operating(op, ClearSessions)];
      ClearSessionsReaches(Now(), t, op);
      sessions := map[];
      tasks := map[t := Operating(op, Drain)];
      DrainReaches(Now(), t, op);
      DrainTable();
      operation := if op.ShutsStopped? then None else operation;
      tasks := if op.Starts? then map[t := Operating(op, Bind)] else if op.Shuts? then map[t := Operating(op, Settle)] else map[];
    }

    /** Takes every entry out of the call table and cancels its call. */
    method DrainTable()
      modifies this`active, this`cancelled
      ensures active == map[] && cancelled == old(cancelled) + TrackedCalls(old(active))
    {
      var rest := active.Keys;
      ghost var before := cancelled;
      while rest != {}
        invariant rest <= active.Keys
        invariant cancelled == before + set key | key in active && key !in rest :: active[key].1
        invariant active == old(active)
      {
        var key :| key in rest;
        cancelled := cancelled + {active[key].1};
        rest := rest - {key};
      }
      assert cancelled == before + TrackedCalls(active);
      active := map[];
    }

    /** `start`: nothing to do if running. Otherwise no lease, session or tracked call of the
        past is left, and the gateway runs under the next generation, or has failed. */
    method StartUp(listener: Option<(ServerId, nat)>) returns (ok: bool)
      requires Valid() && (listener.Some? ==> listener.value.0 !in servers)
      modifies this
      ensures Valid() && calls == old(calls)
      ensures var idle := old(life).phase.Running? || old(life).phase.Starting?;
              && (ok <==> idle || listener.Some?)
              && (idle ==> Now() == old(Now()))
              && (!idle ==> clients == map[] && sessions == map[] && active == map[] && cancelled == old(cancelled) + TrackedCalls(old(active)))
              && (!idle ==> life == if ok then Life(Running, old(life).generation + 1, Some(listener.value.1), Some(listener.value.0))
                                    else Life(Failed, old(life).generation, None, None))
    {
      if life.phase.Running? || life.phase.Starting? {
        return true;
      }
      StartEnterReaches(Now(), 0);
      var server := life.server;
      operation := Some(0);
      tasks := map[0 := Operating(Starts, Cancel(server))];
      life := life.(phase := Starting, addr := None, server := None);
      FinishServer(0, Starts, server);
      ClearTables(0, Starts);
      ok := listener.Some?;
      if ok {
        Commit(0, listener.value.0, listener.value.1);
      } else {
        BindReaches(Now(), 0, 0, 0);
        life := life.(phase := Failed);
        operation, tasks := None, map[];
      }
    }

    /** The listener is bound, its server task spawned, and the lifecycle says Running. */
    method Commit(ghost t: TaskId, listener: ServerId, addr: nat)
      requires Reachable(Now()) && tasks == map[t := Operating(Starts, Bind)] && listener !in servers
      modifies this`servers, this`life, this`operation, this`tasks
      ensures Valid() && life == Life(Running, old(life).generation + 1, Some(addr), Some(listener))
    {
      SpawnServer(t, listener, addr);
      AdvanceReaches(Now(), t, Starts, Gateway.Commit(listener, addr));
      life := Life(Running, life.generation + 1, Some(addr), Some(listener));
      operation, tasks := None, map[];
    }

    method SpawnServer(ghost t: TaskId, listener: ServerId, ghost addr: nat)
      requires Reachable(Now()) && tasks == map[t := Operating(Starts, Bind)] && listener !in servers
      modifies this`servers, this`tasks
      ensures Reachable(Now()) && tasks == map[t := Operating(Starts, Gateway.Commit(listener, addr))]
    {
      BindReaches(Now(), t, listener, addr);
      servers := servers[listener := Serving(false)];
      tasks := map[t := Operating(Starts, Gateway.Commit(listener, addr))];
    }

    /** `shutdown`: afterwards the gateway is stopped, without address, leases, sessions or
        tracked calls, and every call that was tracked is cancelled. */
    method ShutDown()
      requires Valid()
      modifies this
      ensures Valid() && calls == old(calls) && clients == map[] && sessions == map[] && active == map[]
      ensures cancelled == old(cancelled) + TrackedCalls(old(active))
      ensures life == if old(life).phase.Stopped? then old(life) else Life(Stopped, old(life).generation, None, None)
    {
      if life.phase.Stopped? {
        ShutStopped(0);
      } else {
        ShutRunning(0);
      }
    }

    method ShutStopped(ghost t: TaskId)
      requires Valid() && life.phase.Stopped?
      modifies this`clients, this`sessions, this`active, this`cancelled, this`operation, this`tasks
      ensures Valid() && clients == map[] && sessions == map[] && active == map[]
      ensures cancelled == old(cancelled) + TrackedCalls(old(active))
    {
      ShutEnterReaches(Now(), t);
      operation := Some(t);
      tasks := map[t := Operating(ShutsStopped, ClearClients)];
      ClearTables(t, ShutsStopped);
    }

    method ShutRunning(ghost t: TaskId)
      requires Valid() && !life.phase.Stopped?
      modifies this
      ensures Valid() && calls == old(calls) && clients == map[] && sessions == map[] && active == map[]
      ensures cancelled == old(cancelled) + TrackedCalls(old(active))
      ensures life == Life(Stopped, old(life).generation, None, None)
    {
      var server := TakeServer(t);
      FinishServer(t, Shuts, server);
      ClearTables(t, Shuts);
      SettleDown(t);
    }

    method SettleDown(ghost t: TaskId)
      requires Reachable(Now()) && tasks == map[t := Operating(Shuts, Settle)]
      modifies this`life, this`operation, this`tasks
      ensures Valid() && life == old(life).(phase := Stopped)
    {
      AdvanceReaches(Now(), t, Shuts, Settle);
      life := life.(phase := Stopped);
      operation, tasks := None, map[];
    }

    method TakeServer(ghost t: TaskId) returns (server: Option<ServerId>)
      requires Valid() && !life.phase.Stopped?
      modifies this`life, this`operation, this`tasks
      ensures Reachable(Now()) && life == Life(Stopping, old(life).generation, None, None)
      ensures tasks == map[t := Operating(Shuts, Cancel(server))]
    {
      ShutEnterReaches(Now(), t);
      operation := Some(t);
      tasks := map[t := Operating(Shuts, Take)];
      AdvanceReaches(Now(), t, Shuts, Take);
      server := life.server;
      life := life.(phase := Stopping, addr := None, server := None);
      tasks := map[t := Operating(Shuts, Cancel(server))];
    }

    // ------------------------------------------------------------------- requests

    /** The checks of a request: its lease, the lifecycle, and its session if it names one. */
    method Authenticate(token: Token, session: Option<SessionId>) returns (outcome: Outcome, client: Option<Client>)
      requires Valid()
      modifies this`tasks
      ensures Reachable(Now()) && !outcome.NoContext?
      ensures outcome.Unauthenticated? <==> token !in clients
      ensures outcome.NotReady? <==> token in clients && !Accepts(Now(), clients[token])
      ensures outcome.BadSession? <==>
                && token in clients && Accepts(Now(), clients[token])
                && session.Some? && !(session.value in sessions && sessions[session.value] == token)
      ensures if outcome.Done? then token in clients && client == Some(clients[token]) && tasks == map[0 := Ready(token, clients[token])] else tasks == map[]
    {
      if token !in clients {
        return Unauthenticated, None;
      }
      client := Some(clients[token]);
      ResolveReaches(Now(), 0, token);
      tasks := map[0 := Resolved(token, clients[token])];
      CheckReaches(Now(), 0);
      if !(life.phase.Running? && life.generation == client.value.generation) {
        tasks := map[];
        return NotReady, None;
      }
      tasks := map[0 := Ready(token, clients[token])];
      if session.Some? {
        SessionReaches(Now(), 0, session.value);
        if !(session.value in sessions && sessions[session.value] == token) {
          tasks := map[];
          return BadSession, None;
        }
      }
      outcome := Done;
    }

    /** A cancel notification: it cancels the tracked call of its own lease and id, if there
        is one, and no other. */
    method NoteCancelled(token: Token, session: Option<SessionId>, id: RpcId) returns (outcome: Outcome)
      requires Valid()
      modifies this`cancelled, this`tasks
      ensures Valid() && !outcome.NoContext?
      ensures outcome.Done? <==>
                && token in clients && Accepts(Now(), clients[token])
                && (session.Some? ==> session.value in sessions && sessions[session.value] == token)
      ensures forall c :: c in cancelled <==> c in old(cancelled) || (outcome.Done? && c in calls && calls[c] == Call(token, id) && Tracked(Now(), c))
    {
      ReachableOk(Now());
      var client;
      outcome, client := Authenticate(token, session);
      if !outcome.Done? {
        return;
      }
      NoteOn(0, token, client.value, id);
    }

    method NoteOn(ghost t: TaskId, token: Token, ghost client: Client, id: RpcId)
      requires Reachable(Now()) && tasks == map[t := Ready(token, client)] && TokenText(token)
      modifies this`cancelled, this`tasks
      ensures Reachable(Now()) && tasks == map[]
      ensures forall c :: c in cancelled <==> c in old(cancelled) || (c in calls && calls[c] == Call(token, id) && Tracked(Now(), c))
    {
      ReachableOk(Now());
      HitsOwnCall(Now(), token, id);
      NoteReaches(Now(), t, id);
      var key := ActiveCallKey(token, id);
      if key in active {
        cancelled := cancelled + {active[key].1};
      }
      tasks := tasks - {t};
    }

    /** The start of a tool call: without a trusted context nothing is registered; otherwise
        the call is tracked, over any other of the same lease and id. */
    method BeginToolCall(token: Token, session: Option<SessionId>, id: RpcId, call: CallId) returns (outcome: Outcome)
      requires Valid() && FreshCall(Now(), call)
      modifies this`active, this`calls, this`tasks
      ensures Valid()
      ensures !outcome.Done? ==> Now() == old(Now())
      ensures outcome.NoContext? || outcome.Done? <==>
                && token in clients && Accepts(Now(), clients[token])
                && (session.Some? ==> session.value in sessions && sessions[session.value] == token)
      ensures outcome.Done? ==> clients[token].context.Some?
      ensures outcome.NoContext? ==> clients[token].context.None?
      ensures outcome.Done? ==> calls == old(calls)[call := Call(token, id)] && Tracked(Now(), call)
      ensures forall c <- old(calls) :: Tracked(Now(), c) <==> old(Tracked(Now(), c)) && !(outcome.Done? && calls[c] == Call(token, id))
    {
      ReachableOk(Now());
      var client;
      outcome, client := Authenticate(token, session);
      if outcome.Done? {
        BeginOn(0, token, client.value, id, call);
        outcome := if client.value.context.Some? then Done else NoContext;
      }
    }

    method BeginOn(ghost t: TaskId, token: Token, client: Client, id: RpcId, call: CallId)
      requires Reachable(Now()) && tasks == map[t := Ready(token, client)] && TokenText(token) && FreshCall(Now(), call)
      modifies this`active, this`calls, this`tasks
      ensures Reachable(Now()) && tasks == map[]
      ensures client.context.None? ==> active == old(active) && calls == old(calls)
      ensures client.context.Some? ==> calls == old(calls)[call := Call(token, id)] && Tracked(Now(), call)
      ensures client.context.Some? ==>
                forall c <- old(calls) :: Tracked(Now(), c) <==> old(Tracked(Now(), c)) && calls[c] != Call(token, id)
    {
      ReachableOk(Now());
      BeginReaches(Now(), t, id, call);
      tasks := tasks - {t};
      if client.context.Some? {
        TrackCall(token, id, call);
      }
    }

    method TrackCall(token: Token, id: RpcId, call: CallId)
      requires EntriesOk(Now()) && TokenText(token) && FreshCall(Now(), call)
      modifies this`active, this`calls
      ensures Now() == Track(old(Now()), token, id, call) && Tracked(Now(), call)
      ensures forall c <- old(calls) :: Tracked(Now(), c) <==> old(Tracked(Now(), c)) && calls[c] != Call(token, id)
    {
      TracksOver(Now(), token, id, call);
      active := active[ActiveCallKey(token, id) := (token, call)];
      calls := calls[call := Call(token, id)];
    }
  }

  lemma NothingToPurge(sessions: map<SessionId, Token>, active: map<string, (Token, CallId)>)
    ensures sessions == (map k | k in sessions && sessions[k] !in {} :: sessions[k]) && CallsOf(active, {}) == {}
  {
  }

  /** The entry under a lease and id is of a running call of just that lease and id. */
  lemma HitsOwnCall(s: State, token: Token, id: RpcId)
    requires EntriesOk(s) && TokenText(token)
    ensures var key := ActiveCallKey(token, id);
            forall c :: (key in s.active && s.active[key].1 == c) <==> (c in s.calls && s.calls[c] == Call(token, id) && Tracked(s, c))
  {
    var key := ActiveCallKey(token, id);
    if key in s.active {
      assert EntryOk(s, key);
      var c := s.active[key].1;
      ActiveCallKeyInjective(s.calls[c].token, s.calls[c].id, token, id);
    }
  }

  lemma TracksOver(s: State, token: Token, id: RpcId, call: CallId)
    requires EntriesOk(s) && TokenText(token) && FreshCall(s, call)
    ensures forall c <- s.calls :: Tracked(Track(s, token, id, call), c) <==> Tracked(s, c) && s.calls[c] != Call(token, id)
  {
    forall c | c in s.calls ensures Tracked(Track(s, token, id, call), c) <==> Tracked(s, c) && s.calls[c] != Call(token, id) {
      TrackTakesOver(s, token, id, call, c);
    }
  }
}
