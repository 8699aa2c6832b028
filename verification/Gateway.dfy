/** The MCP gateway (src-tauri/src/mcp_gateway.rs) at lock granularity. Each event below is
    one critical section of one lock, so registrations, revocations, restarts, shutdowns
    and requests interleave exactly as the locks allow. Tokens, session ids and call ids
    are fresh (UUIDs); the generation counter does not saturate. */
module Gateway {
  import opened Wrappers
  import opened RpcIds

  type Token = string
  type SessionId = nat
  type CallId = nat
  type TaskId = nat
  type ServerId = nat

  datatype Phase = Stopped | Starting | Running | Failed | Stopping
  datatype Life = Life(phase: Phase, generation: nat, addr: Option<nat>, server: Option<ServerId>)
  datatype Server = Serving(cancelled: bool) | Reporting | Exited

  datatype Context = Context(threadId: string, turnId: string)
  datatype Client = Client(engine: string, instance: string, generation: nat, context: Option<Context>)
  datatype Call = Call(token: Token, id: RpcId)

  /** What is left to do of `start` (to the end of its run) or `shutdown`. */
  datatype Op = Starts | Shuts | ShutsStopped
  datatype OpStage = Take | Cancel(server: Option<ServerId>) | Join(server: Option<ServerId>)
                   | ClearClients | ClearSessions | Drain | Settle | Bind | Commit(listener: ServerId, addr: nat)

  datatype Task =
    | Registering(engine: string, instance: string, generation: nat)
    | PurgingSessions(tokens: set<Token>)
    | PurgingCalls(tokens: set<Token>)
    | Operating(op: Op, stage: OpStage)
    | Resolved(token: Token, client: Client)
    | Ready(token: Token, client: Client)

  /** `issued` remembers the generation of every token ever put in the table. */
  datatype State = State(
    life: Life,
    servers: map<ServerId, Server>,
    operation: Option<TaskId>,
    clients: map<Token, Client>,
    sessions: map<SessionId, Token>,
    active: map<string, (Token, CallId)>,
    cancelled: set<CallId>,
    calls: map<CallId, Call>,
    tasks: map<TaskId, Task>,
    issued: map<Token, nat>)

  const INIT := State(Life(Stopped, 0, None, None), map[], None, map[], map[], map[], {}, map[], map[], map[])

  datatype Event =
    | RegisterRead(task: TaskId, engine: string, instance: string)
    | RegisterInsert(task: TaskId, token: Token)
    | PurgeSessions(task: TaskId)
    | PurgeCalls(task: TaskId)
    | RevokeRemove(task: TaskId, token: Token)
    | SetContext(token: Token, context: Option<Context>)
    | StartEnter(task: TaskId)
    | ShutEnter(task: TaskId)
    | Advance(task: TaskId)
    | BindFails(task: TaskId)
    | BindOk(task: TaskId, server: ServerId, addr: nat)
    | ServerBreaks(server: ServerId)
    | ServerReports(server: ServerId)
    | ServerStops(server: ServerId)
    | Resolve(task: TaskId, token: Token)
    | Check(task: TaskId)
    | CheckSession(task: TaskId, session: SessionId)
    | Initialize(task: TaskId, session: SessionId)
    | CancelNote(task: TaskId, id: RpcId)
    | BeginCall(task: TaskId, id: RpcId, call: CallId)
    | EndCall(call: CallId)

  predicate AtStage(s: State, t: TaskId, stage: OpStage) {
    t in s.tasks && s.tasks[t].Operating? && s.tasks[t].stage == stage
  }

  predicate Accepts(s: State, client: Client) { s.life.phase.Running? && s.life.generation == client.generation }

  /** A new call has a cancellation token of its own; its request id may be in use. */
  predicate FreshCall(s: State, call: CallId) { call !in s.calls && call !in s.cancelled }

  /** Sections of a `start` or `shutdown`, and the life of the server tasks they spawn. */
  predicate OperationEvent(e: Event) {
    e.StartEnter? || e.ShutEnter? || e.Advance? || e.BindFails? || e.BindOk? || e.ServerBreaks? || e.ServerReports? || e.ServerStops?
  }

  /** Sections that register, replace, revoke or annotate leases. */
  predicate LeaseEvent(e: Event) {
    e.RegisterRead? || e.RegisterInsert? || e.PurgeSessions? || e.PurgeCalls? || e.RevokeRemove? || e.SetContext?
  }

  predicate RequestEvent(e: Event) { !OperationEvent(e) && !LeaseEvent(e) }

  /** An operation waits, while joining, for the old server task to exit. */
  predicate CanAdvance(s: State, t: TaskId) {
    && t in s.tasks && s.tasks[t].Operating? && !s.tasks[t].stage.Bind?
    && (s.tasks[t].stage.Join? && s.tasks[t].stage.server.Some? && s.tasks[t].stage.server.value in s.servers ==>
          s.servers[s.tasks[t].stage.server.value].Exited?)
  }

  predicate CanOperate(s: State, e: Event)
    requires OperationEvent(e)
  {
    match e
    case StartEnter(t) => t !in s.tasks && s.operation.None? && !s.life.phase.Running? && !s.life.phase.Starting?
    case ShutEnter(t) => t !in s.tasks && s.operation.None?
    case Advance(t) => CanAdvance(s, t)
    case BindFails(t) => AtStage(s, t, Bind)
    case BindOk(t, server, _) => AtStage(s, t, Bind) && server !in s.servers
    case ServerBreaks(v) => v in s.servers && s.servers[v] == Serving(false)
    case ServerReports(v) => v in s.servers && s.servers[v].Reporting?
    case ServerStops(v) => v in s.servers && s.servers[v] == Serving(true)
  }

  predicate CanLease(s: State, e: Event)
    requires LeaseEvent(e)
  {
    match e
    case RegisterRead(t, engine, instance) => t !in s.tasks && engine != "" && instance != "" && s.life.phase.Running?
    case RegisterInsert(t, token) => t in s.tasks && s.tasks[t].Registering? && token !in s.issued && TokenText(token)
    case PurgeSessions(t) => t in s.tasks && s.tasks[t].PurgingSessions?
    case PurgeCalls(t) => t in s.tasks && s.tasks[t].PurgingCalls?
    case RevokeRemove(t, token) => t !in s.tasks && token in s.clients
    case SetContext(token, _) => token in s.clients
  }

  predicate CanRequest(s: State, e: Event)
    requires RequestEvent(e)
  {
    match e
    case Resolve(t, token) => t !in s.tasks && token in s.clients
    case Check(t) => t in s.tasks && s.tasks[t].Resolved?
    case CheckSession(t, _) => t in s.tasks && s.tasks[t].Ready?
    case Initialize(t, session) => t in s.tasks && s.tasks[t].Ready? && session !in s.sessions
    case CancelNote(t, _) => t in s.tasks && s.tasks[t].Ready?
    case BeginCall(t, id, call) => t in s.tasks && s.tasks[t].Ready? && FreshCall(s, call)
    case EndCall(call) => call in s.calls
  }

  predicate CanHappen(s: State, e: Event) {
    if OperationEvent(e) then CanOperate(s, e) else if LeaseEvent(e) then CanLease(s, e) else CanRequest(s, e)
  }

  function SetTask(s: State, t: TaskId, task: Task): State { s.(tasks := s.tasks[t := task]) }
  function EndTask(s: State, t: TaskId): State { s.(tasks := s.tasks - {t}) }

  /** Leases of one engine instance. */
  function LeasesOf(clients: map<Token, Client>, engine: string, instance: string): set<Token> {
    set token | token in clients && clients[token].engine == engine && clients[token].instance == instance
  }

  function OnRegisterInsert(s: State, t: TaskId, token: Token): (s': State)
    requires t in s.tasks && s.tasks[t].Registering?
    ensures s' == s.(clients := s'.clients, issued := s'.issued, tasks := s'.tasks)
  {
    var Registering(engine, instance, generation) := s.tasks[t];
    var replaced := LeasesOf(s.clients, engine, instance);
    var s1 := s.(clients := (s.clients - replaced)[token := Client(engine, instance, generation, None)],
                 issued := s.issued[token := generation]);
    if replaced == {} then EndTask(s1, t) else SetTask(s1, t, PurgingSessions(replaced))
  }

  function CallsOf(active: map<string, (Token, CallId)>, tokens: set<Token>): set<CallId> {
    set key | key in active && active[key].0 in tokens :: active[key].1
  }

  function OnPurgeSessions(s: State, t: TaskId): State
    requires t in s.tasks && s.tasks[t].PurgingSessions?
  {
    var tokens := s.tasks[t].tokens;
    SetTask(s.(sessions := map k | k in s.sessions && s.sessions[k] !in tokens :: s.sessions[k]), t, PurgingCalls(tokens))
  }

  function OnPurgeCalls(s: State, t: TaskId): State
    requires t in s.tasks && s.tasks[t].PurgingCalls?
  {
    EndTask(s.(cancelled := s.cancelled + CallsOf(s.active, s.tasks[t].tokens)), t)
  }

  /** Gives the operation lock back. */
  function Release(s: State, t: TaskId): State { EndTask(s, t).(operation := None) }

  function TrackedCalls(active: map<string, (Token, CallId)>): set<CallId> {
    set key | key in active :: active[key].1
  }

  /** What an operation does next; `None` once it is over and gives the operation lock back. */
  function NextStage(s: State, op: Op, stage: OpStage): Option<OpStage> {
    match stage
    case Take => Some(Cancel(s.life.server))
    case Cancel(v) => Some(Join(v))
    case Join(_) => Some(ClearClients)
    case ClearClients => Some(ClearSessions)
    case ClearSessions => Some(Drain)
    case Drain => if op.Starts? then Some(Bind) else if op.Shuts? then Some(Settle) else None
    case Settle => None
    case Bind => Some(Bind)
    case Commit(_, _) => None
  }

  function LifeAfter(life: Life, op: Op, stage: OpStage): Life {
    match stage
    case Take => life.(phase := Stopping, addr := None, server := None)
    case Settle => life.(phase := Stopped)
    case Commit(v, addr) => Life(Running, life.generation + 1, Some(addr), Some(v))
    case _ => life
  }

  function ServersAfter(servers: map<ServerId, Server>, stage: OpStage): map<ServerId, Server> {
    if stage.Cancel? && stage.server.Some? && stage.server.value in servers && servers[stage.server.value].Serving? then
      servers[stage.server.value := Serving(true)]
    else servers
  }

  /** The next critical section of a `start` or `shutdown` in progress. */
  function OnAdvance(s: State, t: TaskId): State
    requires CanAdvance(s, t)
  {
    var Operating(op, stage) := s.tasks[t];
    var next := NextStage(s, op, stage);
    State(
      LifeAfter(s.life, op, stage),
      ServersAfter(s.servers, stage),
      if next.Some? then s.operation else None,
      if stage.ClearClients? then map[] else s.clients,
      if stage.ClearSessions? then map[] else s.sessions,
      if stage.Drain? then map[] else s.active,
      if stage.Drain? then s.cancelled + TrackedCalls(s.active) else s.cancelled,
      s.calls,
      if next.Some? then s.tasks[t := Operating(op, next.value)] else s.tasks - {t},
      s.issued)
  }

  function OnStartEnter(s: State, t: TaskId): State {
    SetTask(s.(operation := Some(t), life := s.life.(phase := Starting, addr := None, server := None)),
            t, Operating(Starts, Cancel(s.life.server)))
  }

  function OnShutEnter(s: State, t: TaskId): State {
    SetTask(s.(operation := Some(t)), t,
            if s.life.phase.Stopped? then Operating(ShutsStopped, ClearClients) else Operating(Shuts, Take))
  }

  /** The two lifecycle checks of a request, and the answer "not ready" if they fail. */
  function OnCheck(s: State, t: TaskId): (s': State)
    requires t in s.tasks && s.tasks[t].Resolved?
    ensures s' == s.(tasks := s'.tasks)
  {
    var Resolved(token, client) := s.tasks[t];
    if Accepts(s, client) then SetTask(s, t, Ready(token, client)) else EndTask(s, t)
  }

  function Track(s: State, token: Token, id: RpcId, call: CallId): (s': State)
    ensures s' == s.(active := s'.active, calls := s'.calls)
  {
    s.(active := s.active[ActiveCallKey(token, id) := (token, call)], calls := s.calls[call := Call(token, id)])
  }

  function OnBeginCall(s: State, t: TaskId, id: RpcId, call: CallId): (s': State)
    requires t in s.tasks && s.tasks[t].Ready?
    ensures s' == s.(active := s'.active, calls := s'.calls, tasks := s'.tasks)
  {
    var Ready(token, client) := s.tasks[t];
    if client.context.None? then EndTask(s, t) else Track(EndTask(s, t), token, id, call)
  }

  function OnCancelNote(s: State, t: TaskId, id: RpcId): (s': State)
    requires t in s.tasks && s.tasks[t].Ready?
    ensures s' == s.(cancelled := s'.cancelled, tasks := s'.tasks)
  {
    var key := ActiveCallKey(s.tasks[t].token, id);
    EndTask(if key in s.active then s.(cancelled := s.cancelled + {s.active[key].1}) else s, t)
  }

  function OnEndCall(s: State, call: CallId): (s': State)
    requires call in s.calls
    ensures s' == s.(active := s'.active, calls := s'.calls)
  {
    s.(active := s.active - {ActiveCallKey(s.calls[call].token, s.calls[call].id)}, calls := s.calls - {call})
  }

  function OperationStep(s: State, e: Event): State
    requires OperationEvent(e) && CanOperate(s, e)
  {
    match e
    case StartEnter(t) => OnStartEnter(s, t)
    case ShutEnter(t) => OnShutEnter(s, t)
    case Advance(t) => OnAdvance(s, t)
    case BindFails(t) => Release(s.(life := s.life.(phase := Failed)), t)
    case BindOk(t, server, addr) => SetTask(s.(servers := s.servers[server := Serving(false)]), t, Operating(Starts, Commit(server, addr)))
    case ServerBreaks(v) => s.(servers := s.servers[v := Reporting])
    case ServerReports(v) => s.(servers := s.servers[v := Exited], life := s.life.(phase := Failed, addr := None))
    case ServerStops(v) => s.(servers := s.servers[v := Exited])
  }

  function LeaseStep(s: State, e: Event): State
    requires LeaseEvent(e) && CanLease(s, e)
  {
    match e
    case RegisterRead(t, engine, instance) => SetTask(s, t, Registering(engine, instance, s.life.generation))
    case RegisterInsert(t, token) => OnRegisterInsert(s, t, token)
    case PurgeSessions(t) => OnPurgeSessions(s, t)
    case PurgeCalls(t) => OnPurgeCalls(s, t)
    case RevokeRemove(t, token) => SetTask(s.(clients := s.clients - {token}), t, PurgingSessions({token}))
    case SetContext(token, context) => s.(clients := s.clients[token := s.clients[token].(context := context)])
  }

  function RequestStep(s: State, e: Event): State
    requires RequestEvent(e) && CanRequest(s, e)
  {
    match e
    case Resolve(t, token) => SetTask(s, t, Resolved(token, s.clients[token]))
    case Check(t) => OnCheck(s, t)
    case CheckSession(t, session) =>
      if session in s.sessions && s.sessions[session] == s.tasks[t].token then s else EndTask(s, t)
    case Initialize(t, session) => EndTask(s.(sessions := s.sessions[session := s.tasks[t].token]), t)
    case CancelNote(t, id) => OnCancelNote(s, t, id)
    case BeginCall(t, id, call) => OnBeginCall(s, t, id, call)
    case EndCall(call) => OnEndCall(s, call)
  }

  function Step(s: State, e: Event): State {
    if !CanHappen(s, e) then s
    else if OperationEvent(e) then OperationStep(s, e)
    else if LeaseEvent(e) then LeaseStep(s, e)
    else RequestStep(s, e)
  }

  function RunFrom(s: State, es: seq<Event>): State {
    if es == [] then s else Step(RunFrom(s, es[..|es| - 1]), es[|es| - 1])
  }

  function Run(es: seq<Event>): State { RunFrom(INIT, es) }

  // ------------------------------------------------------------------- frames

  /** All tasks but `t` are as they were. */
  predicate OnlyTask(s: State, s': State, t: Option<TaskId>) {
    forall u <- s'.tasks :: t == Some(u) || (u in s.tasks && s'.tasks[u] == s.tasks[u])
  }

  function Actor(e: Event): Option<TaskId> {
    if e.SetContext? || e.ServerBreaks? || e.ServerReports? || e.ServerStops? || e.EndCall? then None else Some(e.task)
  }

  lemma RequestFrame(s: State, e: Event)
    requires RequestEvent(e) && CanRequest(s, e)
    ensures var s' := RequestStep(s, e);
            s'.life == s.life && s'.operation == s.operation && s'.clients == s.clients && s'.issued == s.issued
  {
  }

  lemma RequestTasks(s: State, e: Event)
    requires RequestEvent(e) && CanRequest(s, e)
    ensures var s' := RequestStep(s, e);
            && OnlyTask(s, s', Actor(e))
            && (forall u :: u in s'.tasks && Actor(e) == Some(u) ==> s'.tasks[u].Resolved? || s'.tasks[u].Ready?)
  {
  }

  lemma LeaseFrame(s: State, e: Event)
    requires LeaseEvent(e) && CanLease(s, e)
    ensures var s' := LeaseStep(s, e);
            && s'.life == s.life && s'.operation == s.operation && s'.active == s.active && s'.calls == s.calls
            && OnlyTask(s, s', Actor(e))
            && (forall u :: u in s'.tasks && Actor(e) == Some(u) ==> !s'.tasks[u].Operating?)
  {
    LeaseTasks(s, e);
  }

  lemma LeaseTasks(s: State, e: Event)
    requires LeaseEvent(e) && CanLease(s, e)
    ensures var s' := LeaseStep(s, e);
            && OnlyTask(s, s', Actor(e))
            && (forall u :: u in s'.tasks && Actor(e) == Some(u) ==> !s'.tasks[u].Operating?)
  {
  }

  lemma OperationFrame(s: State, e: Event)
    requires OperationEvent(e) && CanOperate(s, e)
    ensures var s' := OperationStep(s, e);
            && OnlyTask(s, s', Actor(e)) && s'.issued == s.issued && s'.calls == s.calls
            && (s'.clients == s.clients || s'.clients == map[]) && s.life.generation <= s'.life.generation
            && (forall u :: u in s'.tasks && Actor(e) == Some(u) ==> s'.tasks[u].Operating?)
  {
  }
}
