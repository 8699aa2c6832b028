/** The registry of local CLI services (src-tauri/src/local_cli_service_lifecycle.rs) running
    beside the MCP gateway. Every event is one critical section of the registry, or a
    section of the gateway; `set` and `terminate` hold the mutation lock throughout, `get`
    does not. The gateway may start and shut down at any time, which clears its lease table;
    only this registry uses leases whose engine and instance id are the same CLI id. */
module CliRegistry {
  import opened Wrappers
  import Gateway
  import opened GatewayLeases

  type CliId = string
  type Token = string
  type TaskId = nat
  type Gen = nat

  /** A service object; `terminating` is its state, `generation` its identity. */
  datatype Service = Service(cli: CliId, token: Token, terminating: bool)

  datatype SetStage =
    | Existing(gen: Gen) | Fresh | Reading(gate: Gateway.TaskId) | Leased(token: Token) | Building(token: Token)
    | Undo(token: Token) | Created(gen: Gen) | Stored(registered: Gen, own: Gen)
  datatype EndStage = Found(gen: Gen) | Checked(gen: Gen) | Marked(gen: Gen) | Removed(gen: Gen) | Revoke(gen: Gen)

  datatype Caller = Setter | Ender | Getter

  datatype Outcome =
    | Returned(gen: Gen) | NotRegistered | IsTerminating | LostInsert
    | SetFailed(lease: Option<Token>) | Ended | EndFailed(token: Token)

  datatype Task =
    | Setting(cli: CliId, doing: SetStage)
    | Ending(cli: CliId, ending: EndStage)
    | Getting(cli: CliId, gen: Gen)
    | Done(caller: Caller, outcome: Outcome)

  /** How often a start or shutdown has cleared the gateway's table, and how often it had
      when each lease of this registry was inserted. */
  datatype Ledger = Ledger(clears: nat, leasedAt: map<Token, nat>)

  datatype State = State(
    services: map<CliId, Gen>,
    objects: map<Gen, Service>,
    nextGen: Gen,
    lock: Option<TaskId>,
    tasks: map<TaskId, Task>,
    gateway: Gateway.State,
    ledger: Ledger)

  datatype Event =
    | SetEnter(task: TaskId, cli: CliId)
    | SetCheckExisting(task: TaskId)
    | SetGivesUp(task: TaskId)
    | SetRead(task: TaskId, gate: Gateway.TaskId)
    | SetInsert(task: TaskId, token: Token)
    | SetEndpoint(task: TaskId)
    | SetBuildFails(task: TaskId)
    | SetUndo(task: TaskId, gate: Gateway.TaskId)
    | SetCreate(task: TaskId)
    | SetStore(task: TaskId)
    | SetConclude(task: TaskId)
    | EndEnter(task: TaskId, cli: CliId)
    | EndCheck(task: TaskId)
    | EndMark(task: TaskId)
    | EndRemove(task: TaskId)
    | EndChildren(task: TaskId, ok: bool)
    | EndRevoke(task: TaskId, gate: Gateway.TaskId)
    | GetRead(task: TaskId, cli: CliId)
    | GetCheck(task: TaskId)
    | Other(event: Gateway.Event)

  predicate SetAt(s: State, t: TaskId) { t in s.tasks && s.tasks[t].Setting? }
  predicate EndAt(s: State, t: TaskId) { t in s.tasks && s.tasks[t].Ending? }

  /** The environment's gateway events: all but registering or revoking this registry's leases. */
  predicate Foreign(g: Gateway.State, e: Gateway.Event) {
    && (e.RegisterRead? ==> e.engine != e.instance)
    && (e.RegisterInsert? ==> e.task in g.tasks && g.tasks[e.task].Registering? && g.tasks[e.task].engine != g.tasks[e.task].instance)
    && (e.RevokeRemove? ==> e.token in g.clients && g.clients[e.token].engine != g.clients[e.token].instance)
  }

  predicate CanSet(s: State, e: Event) {
    match e
    case SetEnter(t, cli) => t !in s.tasks && s.lock.None?
    case SetCheckExisting(t) => SetAt(s, t) && s.tasks[t].doing.Existing? && s.tasks[t].doing.gen in s.objects
    case SetGivesUp(t) => SetAt(s, t) && s.tasks[t].doing.Fresh?
    case SetRead(t, gate) => SetAt(s, t) && s.tasks[t].doing.Fresh? && gate !in s.gateway.tasks
    case SetInsert(t, token) => SetAt(s, t) && s.tasks[t].doing.Reading? && Gateway.CanHappen(s.gateway, Gateway.RegisterInsert(s.tasks[t].doing.gate, token))
    case SetEndpoint(t) => SetAt(s, t) && s.tasks[t].doing.Leased?
    case SetBuildFails(t) => SetAt(s, t) && s.tasks[t].doing.Building?
    case SetUndo(t, gate) => SetAt(s, t) && s.tasks[t].doing.Undo? && gate !in s.gateway.tasks
    case SetCreate(t) => SetAt(s, t) && s.tasks[t].doing.Building?
    case SetStore(t) => SetAt(s, t) && s.tasks[t].doing.Created?
    case SetConclude(t) => SetAt(s, t) && s.tasks[t].doing.Stored? && s.tasks[t].doing.registered in s.objects
    case _ => false
  }

  predicate CanEnd(s: State, e: Event) {
    match e
    case EndEnter(t, cli) => t !in s.tasks && s.lock.None?
    case EndCheck(t) => EndAt(s, t) && s.tasks[t].ending.Found? && s.tasks[t].ending.gen in s.objects
    case EndMark(t) => EndAt(s, t) && s.tasks[t].ending.Checked? && s.tasks[t].ending.gen in s.objects
    case EndRemove(t) => EndAt(s, t) && s.tasks[t].ending.Marked?
    case EndChildren(t, _) => EndAt(s, t) && s.tasks[t].ending.Removed? && s.tasks[t].ending.gen in s.objects
    case EndRevoke(t, gate) => EndAt(s, t) && s.tasks[t].ending.Revoke? && s.tasks[t].ending.gen in s.objects && gate !in s.gateway.tasks
    case _ => false
  }

  predicate CanGet(s: State, e: Event) {
    match e
    case GetRead(t, cli) => t !in s.tasks
    case GetCheck(t) => t in s.tasks && s.tasks[t].Getting? && s.tasks[t].gen in s.objects
    case _ => false
  }

  function Go(s: State, t: TaskId, task: Task): State { s.(tasks := s.tasks[t := task]) }

  /** The call returns and the mutation lock is free again. */
  function Finish(s: State, t: TaskId, caller: Caller, outcome: Outcome): State {
    s.(tasks := s.tasks[t := Done(caller, outcome)], lock := None)
  }

  /** The section of a start or shutdown that empties the gateway's lease table. */
  predicate ClearsTable(g: Gateway.State, e: Gateway.Event) {
    e.Advance? && Gateway.CanHappen(g, e) && g.tasks[e.task].stage.ClearClients?
  }

  function Gate(s: State, e: Gateway.Event): State {
    s.(gateway := Gateway.Step(s.gateway, e),
       ledger := if ClearsTable(s.gateway, e) then s.ledger.(clears := s.ledger.clears + 1) else s.ledger)
  }

  /** Inserts a lease of this registry, and notes when. */
  function Lease(s: State, gate: Gateway.TaskId, token: Token): State {
    Gate(s, Gateway.RegisterInsert(gate, token)).(ledger := s.ledger.(leasedAt := s.ledger.leasedAt[token := s.ledger.clears]))
  }

  function SetStep(s: State, e: Event): State
    requires CanSet(s, e)
  {
    match e
    case SetEnter(t, cli) =>
      Go(s.(lock := Some(t)), t, Setting(cli, if cli in s.services then Existing(s.services[cli]) else Fresh))
    case SetCheckExisting(t) =>
      var gen := s.tasks[t].doing.gen;
      Finish(s, t, Setter, if s.objects[gen].terminating then IsTerminating else Returned(gen))
    case SetGivesUp(t) => Finish(s, t, Setter, SetFailed(None))
    case SetRead(t, gate) =>
      var cli := s.tasks[t].cli;
      if s.gateway.life.phase.Running? && cli != "" then
        Go(Gate(s, Gateway.RegisterRead(gate, cli, cli)), t, Setting(cli, Reading(gate)))
      else Finish(s, t, Setter, SetFailed(None))
    case SetInsert(t, token) =>
      Go(Lease(s, s.tasks[t].doing.gate, token), t, Setting(s.tasks[t].cli, Leased(token)))
    case SetEndpoint(t) =>
      var token := s.tasks[t].doing.token;
      Go(s, t, Setting(s.tasks[t].cli, if s.gateway.life.addr.Some? then Building(token) else Undo(token)))
    case SetBuildFails(t) => Go(s, t, Setting(s.tasks[t].cli, Undo(s.tasks[t].doing.token)))
    case SetUndo(t, gate) =>
      var token := s.tasks[t].doing.token;
      Finish(Gate(s, Gateway.RevokeRemove(gate, token)), t, Setter, SetFailed(Some(token)))
    case SetCreate(t) =>
      Go(s.(objects := s.objects[s.nextGen := Service(s.tasks[t].cli, s.tasks[t].doing.token, false)], nextGen := s.nextGen + 1),
         t, Setting(s.tasks[t].cli, Created(s.nextGen)))
    case SetStore(t) =>
      var Setting(cli, stage) := s.tasks[t];
      if cli in s.services then Go(s, t, Setting(cli, Stored(s.services[cli], stage.gen)))
      else Go(s.(services := s.services[cli := stage.gen]), t, Setting(cli, Stored(stage.gen, stage.gen)))
    case SetConclude(t) =>
      // Outcomes other than Returned are proved unreachable: what they would do next is not followed.
      var Stored(registered, own) := s.tasks[t].doing;
      Finish(s, t, Setter, if registered != own then LostInsert
                         else if s.objects[registered].terminating then IsTerminating
                         else Returned(registered))
  }

  function EndStep(s: State, e: Event): State
    requires CanEnd(s, e)
  {
    match e
    case EndEnter(t, cli) =>
      if cli in s.services then Go(s.(lock := Some(t)), t, Ending(cli, Found(s.services[cli])))
      else Finish(s, t, Ender, NotRegistered)
    case EndCheck(t) =>
      var gen := s.tasks[t].ending.gen;
      if s.objects[gen].terminating then Finish(s, t, Ender, IsTerminating)
      else Go(s, t, Ending(s.tasks[t].cli, Checked(gen)))
    case EndMark(t) =>
      var gen := s.tasks[t].ending.gen;
      Go(s.(objects := s.objects[gen := s.objects[gen].(terminating := true)]), t, Ending(s.tasks[t].cli, Marked(gen)))
    case EndRemove(t) =>
      var Ending(cli, stage) := s.tasks[t];
      if cli in s.services && s.services[cli] == stage.gen then
        Go(s.(services := s.services - {cli}), t, Ending(cli, Removed(stage.gen)))
      else Finish(s, t, Ender, Ended)
    case EndChildren(t, ok) =>
      if ok then Go(s, t, Ending(s.tasks[t].cli, Revoke(s.tasks[t].ending.gen))) 
      else Finish(s, t, Ender, EndFailed(s.objects[s.tasks[t].ending.gen].token))
    case EndRevoke(t, gate) =>
      Finish(Gate(s, Gateway.RevokeRemove(gate, s.objects[s.tasks[t].ending.gen].token)), t, Ender, Ended)
  }

  function GetStep(s: State, e: Event): State
    requires CanGet(s, e)
  {
    match e
    case GetRead(t, cli) =>
      if cli in s.services then Go(s, t, Getting(cli, s.services[cli])) else Go(s, t, Done(Getter, NotRegistered))
    case GetCheck(t) =>
      var gen := s.tasks[t].gen;
      Go(s, t, Done(Getter, if s.objects[gen].terminating then IsTerminating else Returned(gen)))
  }

  function Step(s: State, e: Event): State {
    if e.Other? then
      if Foreign(s.gateway, e.event) then Gate(s, e.event) else s
    else if CanSet(s, e) then SetStep(s, e)
    else if CanEnd(s, e) then EndStep(s, e)
    else if CanGet(s, e) then GetStep(s, e)
    else s
  }

  function RunFrom(s: State, es: seq<Event>): State {
    if es == [] then s else Step(RunFrom(s, es[..|es| - 1]), es[|es| - 1])
  }

  /** A registry with nothing registered yet, next to a gateway in some reachable state. */
  ghost predicate Initial(s: State) {
    && s.services == map[] && s.objects == map[] && s.lock.None? && s.tasks == map[]
    && LifeOk(s.gateway) && LeasesOk(s.gateway) && s.ledger == Ledger(0, map[])
    && (forall token <- s.gateway.clients :: s.gateway.clients[token].engine != s.gateway.clients[token].instance)
  }
}
