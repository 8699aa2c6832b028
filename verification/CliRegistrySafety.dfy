/** The registry and the gateway's lease table agree, in every interleaving of `set`,
    `terminate`, `get`, the gateway's server and the gateway's other users. */
module CliRegistrySafety {
  import opened Wrappers
  import Gateway
  import opened GatewayLeases
  import opened CliRegistry

  // -------------------------------------------------- what the gateway guarantees

  /** This token is in the gateway's table as a lease of the CLI service `cli`. */
  predicate Holds(g: Gateway.State, token: Token, cli: CliId) {
    token in g.clients && g.clients[token].engine == cli && g.clients[token].instance == cli
  }

  predicate Spares(g: Gateway.State, e: Gateway.Event, token: Token, cli: CliId) {
    && !ClearsTable(g, e)
    && (e.RevokeRemove? ==> e.token != token)
    && (e.RegisterInsert? && Gateway.CanHappen(g, e) ==> g.tasks[e.task].engine != cli || g.tasks[e.task].instance != cli)
  }

  /** A lease outlives every step but its own revocation, its replacement and the clearing
      of the table. */
  lemma LeaseSpared(g: Gateway.State, e: Gateway.Event, token: Token, cli: CliId)
    requires LeasesOk(g) && Holds(g, token, cli) && Spares(g, e, token, cli)
    ensures Holds(Gateway.Step(g, e), token, cli)
  {
    if Gateway.CanHappen(g, e) {
      if Gateway.OperationEvent(e) {
        OperationSpares(g, e);
      } else if Gateway.LeaseEvent(e) {
        LeaseSectionSpares(g, e, token, cli);
      } else {
        Gateway.RequestFrame(g, e);
      }
    }
  }

  lemma OperationSpares(g: Gateway.State, e: Gateway.Event)
    requires Gateway.OperationEvent(e) && Gateway.CanOperate(g, e) && !ClearsTable(g, e)
    ensures Gateway.OperationStep(g, e).clients == g.clients
  {
  }

  lemma InsertSpares(g: Gateway.State, gate: Gateway.TaskId, other: Token, token: Token, cli: CliId)
    requires LeasesOk(g) && Holds(g, token, cli) && Gateway.CanLease(g, Gateway.RegisterInsert(gate, other))
    requires g.tasks[gate].engine != cli || g.tasks[gate].instance != cli
    ensures Holds(Gateway.OnRegisterInsert(g, gate, other), token, cli)
  {
    assert Known(g, token, g.clients[token]);
  }

  lemma LeaseSectionSpares(g: Gateway.State, e: Gateway.Event, token: Token, cli: CliId)
    requires LeasesOk(g) && Holds(g, token, cli) && Spares(g, e, token, cli) && Gateway.LeaseEvent(e) && Gateway.CanLease(g, e)
    ensures Holds(Gateway.LeaseStep(g, e), token, cli)
  {
    if e.RegisterInsert? { InsertSpares(g, e.task, e.token, token, cli); }
  }

  lemma ClearingEmpties(g: Gateway.State, e: Gateway.Event)
    requires ClearsTable(g, e)
    ensures Gateway.Step(g, e).clients == map[] && Gateway.Step(g, e).issued == g.issued
  {
  }

  lemma InsertHolds(g: Gateway.State, gate: Gateway.TaskId, token: Token, cli: CliId)
    requires Gateway.CanHappen(g, Gateway.RegisterInsert(gate, token))
    requires g.tasks[gate].engine == cli && g.tasks[gate].instance == cli
    ensures var g' := Gateway.Step(g, Gateway.RegisterInsert(gate, token));
            Holds(g', token, cli) && token in g'.issued && forall other :: Holds(g', other, cli) ==> other == token
  {
  }

  /** A lease of this registry: in the table exactly if the table has not been cleared since
      the lease was inserted, and gone for good otherwise. */
  predicate LeaseOk(g: Gateway.State, l: Ledger, token: Token, cli: CliId) {
    && token in l.leasedAt && l.leasedAt[token] <= l.clears && token in g.issued
    && if l.leasedAt[token] == l.clears then Holds(g, token, cli) else token !in g.clients
  }

  lemma LeaseFollows(s: State, e: Gateway.Event, token: Token, cli: CliId)
    requires LeasesOk(s.gateway) && LeaseOk(s.gateway, s.ledger, token, cli)
    requires Holds(s.gateway, token, cli) && !ClearsTable(s.gateway, e) ==> Spares(s.gateway, e, token, cli)
    ensures LeaseOk(Gate(s, e).gateway, Gate(s, e).ledger, token, cli)
  {
    StepGrows(s.gateway, e);
    if ClearsTable(s.gateway, e) {
      ClearingEmpties(s.gateway, e);
    } else if Holds(s.gateway, token, cli) {
      LeaseSpared(s.gateway, e, token, cli);
    } else {
      DeadStaysDead(s.gateway, e, token);
    }
  }

  lemma RevokeKills(g: Gateway.State, gate: Gateway.TaskId, token: Token)
    requires token in g.issued && gate !in g.tasks
    ensures Dead(Gateway.Step(g, Gateway.RevokeRemove(gate, token)), token)
  {
  }

  // -------------------------------------------------------------------- invariant

  /** A task inside `set` or `terminate`, hence holding the mutation lock. */
  predicate Busy(task: Task) { task.Setting? || task.Ending? }

  predicate Made(s: State, gen: Gen, cli: CliId, terminating: bool) {
    gen in s.objects && s.objects[gen].cli == cli && s.objects[gen].terminating == terminating
  }

  predicate GateOk(g: Gateway.State, gate: Gateway.TaskId, cli: CliId) {
    gate in g.tasks && g.tasks[gate].Registering? && g.tasks[gate].engine == cli && g.tasks[gate].instance == cli
  }

  predicate SetOk(s: State, cli: CliId, stage: SetStage) {
    match stage
    case Existing(gen) => cli in s.services && s.services[cli] == gen
    case Fresh => cli !in s.services
    case Reading(gate) => cli !in s.services && GateOk(s.gateway, gate, cli)
    case Leased(token) => cli !in s.services && LeaseOk(s.gateway, s.ledger, token, cli)
    case Building(token) => cli !in s.services && LeaseOk(s.gateway, s.ledger, token, cli)
    case Undo(token) => cli !in s.services && LeaseOk(s.gateway, s.ledger, token, cli)
    case Created(gen) => cli !in s.services && Made(s, gen, cli, false) && LeaseOk(s.gateway, s.ledger, s.objects[gen].token, cli)
    case Stored(registered, own) => registered == own && cli in s.services && s.services[cli] == own
  }

  predicate EndOk(s: State, cli: CliId, stage: EndStage) {
    match stage
    case Found(gen) => cli in s.services && s.services[cli] == gen
    case Checked(gen) => cli in s.services && s.services[cli] == gen
    case Marked(gen) => cli in s.services && s.services[cli] == gen && Made(s, gen, cli, true)
    case Removed(gen) => cli !in s.services && Made(s, gen, cli, true) && LeaseOk(s.gateway, s.ledger, s.objects[gen].token, cli)
    case Revoke(gen) => cli !in s.services && Made(s, gen, cli, true) && LeaseOk(s.gateway, s.ledger, s.objects[gen].token, cli)
  }

  predicate OwnerOk(s: State, task: Task) {
    (task.Setting? && SetOk(s, task.cli, task.doing)) || (task.Ending? && EndOk(s, task.cli, task.ending))
  }

  /** No `set` or `terminate` ends in a "terminating" error or loses its insertion, and a
      failed `set` has revoked the lease it took. */
  predicate OutcomeOk(g: Gateway.State, caller: Caller, outcome: Outcome) {
    && (outcome.IsTerminating? ==> caller.Getter?)
    && !outcome.LostInsert?
    && (outcome.SetFailed? && outcome.lease.Some? ==> Dead(g, outcome.lease.value))
  }

  predicate BystanderOk(s: State, task: Task) {
    && (task.Done? ==> OutcomeOk(s.gateway, task.caller, task.outcome))
    && (task.Getting? ==> task.gen in s.objects)
  }

  predicate Marking(s: State, cli: CliId, gen: Gen) {
    s.lock.Some? && s.lock.value in s.tasks && s.tasks[s.lock.value] == Ending(cli, Marked(gen))
  }

  predicate ServiceOk(s: State, cli: CliId)
    requires cli in s.services
  {
    var gen := s.services[cli];
    && gen in s.objects && s.objects[gen].cli == cli && LeaseOk(s.gateway, s.ledger, s.objects[gen].token, cli)
    && (s.objects[gen].terminating ==> Marking(s, cli, gen))
  }

  ghost predicate TasksOk(s: State) {
    && (s.lock.Some? ==> s.lock.value in s.tasks && Busy(s.tasks[s.lock.value]))
    && (forall t <- s.tasks :: if Busy(s.tasks[t]) then s.lock == Some(t) && OwnerOk(s, s.tasks[t]) else BystanderOk(s, s.tasks[t]))
  }

  ghost predicate RegistryOk(s: State) {
    && LeasesOk(s.gateway)
    && (forall gen <- s.objects :: gen < s.nextGen)
    && TasksOk(s)
    && (forall cli <- s.services :: ServiceOk(s, cli))
  }

  // ----------------------------------------------------------------- preservation

  /** What every step does to the parts other tasks look at. */
  ghost predicate Onward(s: State, s': State) {
    && s.objects.Keys <= s'.objects.Keys
    && (forall token :: Dead(s.gateway, token) ==> Dead(s'.gateway, token))
  }

  lemma GateOnward(s: State, e: Gateway.Event)
    ensures Onward(s, Gate(s, e))
  {
    forall token | Dead(s.gateway, token) ensures Dead(Gateway.Step(s.gateway, e), token) {
      DeadStaysDead(s.gateway, e, token);
    }
  }

  /** One task moves, the lock is its own or stays as it was, and the others look on. */
  lemma MoveKeepsTasks(s: State, s': State, t: TaskId)
    requires TasksOk(s) && Onward(s, s') && t in s'.tasks
    requires forall u <- s'.tasks :: u == t || (u in s.tasks && s'.tasks[u] == s.tasks[u])
    requires s.lock.None? || s.lock == Some(t)
    requires if Busy(s'.tasks[t]) then s'.lock == Some(t) && OwnerOk(s', s'.tasks[t]) else s'.lock.None? && BystanderOk(s', s'.tasks[t])
    ensures TasksOk(s')
  {
    forall u | u in s'.tasks
      ensures if Busy(s'.tasks[u]) then s'.lock == Some(u) && OwnerOk(s', s'.tasks[u]) else BystanderOk(s', s'.tasks[u])
    {
      if u != t { assert !Busy(s.tasks[u]) && BystanderOk(s, s.tasks[u]); }
    }
  }

  lemma SetBeginsOrEnds(s: State, e: Event)
    requires RegistryOk(s) && CanSet(s, e) && (e.SetEnter? || e.SetCheckExisting? || e.SetGivesUp? || e.SetConclude?)
    ensures TasksOk(SetStep(s, e))
  {
    if !e.SetEnter? { assert OwnerOk(s, s.tasks[e.task]); }
    if e.SetCheckExisting? || e.SetConclude? { assert ServiceOk(s, s.tasks[e.task].cli); }
    MoveKeepsTasks(s, SetStep(s, e), e.task);
  }

  lemma SetLooksAround(s: State, e: Event)
    requires RegistryOk(s) && CanSet(s, e) && (e.SetEndpoint? || e.SetBuildFails?)
    ensures TasksOk(SetStep(s, e))
  {
    assert OwnerOk(s, s.tasks[e.task]);
    MoveKeepsTasks(s, SetStep(s, e), e.task);
  }

  lemma SetMakes(s: State, e: Event)
    requires RegistryOk(s) && CanSet(s, e) && (e.SetCreate? || e.SetStore?)
    ensures TasksOk(SetStep(s, e))
  {
    assert OwnerOk(s, s.tasks[e.task]);
    MoveKeepsTasks(s, SetStep(s, e), e.task);
  }

  lemma SetReadKeepsTasks(s: State, t: TaskId, gate: Gateway.TaskId)
    requires RegistryOk(s) && CanSet(s, SetRead(t, gate))
    ensures TasksOk(SetStep(s, SetRead(t, gate)))
  {
    assert OwnerOk(s, s.tasks[t]);
    GateOnward(s, Gateway.RegisterRead(gate, s.tasks[t].cli, s.tasks[t].cli));
    MoveKeepsTasks(s, SetStep(s, SetRead(t, gate)), t);
  }

  lemma SetInsertKeepsTasks(s: State, t: TaskId, token: Token)
    requires RegistryOk(s) && CanSet(s, SetInsert(t, token))
    ensures TasksOk(SetStep(s, SetInsert(t, token)))
  {
    assert OwnerOk(s, s.tasks[t]);
    var gate := s.tasks[t].doing.gate;
    GateOnward(s, Gateway.RegisterInsert(gate, token));
    InsertHolds(s.gateway, gate, token, s.tasks[t].cli);
    MoveKeepsTasks(s, SetStep(s, SetInsert(t, token)), t);
  }

  lemma SetUndoKeepsTasks(s: State, t: TaskId, gate: Gateway.TaskId)
    requires RegistryOk(s) && CanSet(s, SetUndo(t, gate))
    ensures TasksOk(SetStep(s, SetUndo(t, gate)))
  {
    assert OwnerOk(s, s.tasks[t]);
    var token := s.tasks[t].doing.token;
    GateOnward(s, Gateway.RevokeRemove(gate, token));
    RevokeKills(s.gateway, gate, token);
    MoveKeepsTasks(s, SetStep(s, SetUndo(t, gate)), t);
  }

  lemma EndKeepsTasks(s: State, e: Event)
    requires RegistryOk(s) && CanEnd(s, e) && !e.EndRevoke?
    ensures TasksOk(EndStep(s, e))
  {
    if !e.EndEnter? { assert OwnerOk(s, s.tasks[e.task]); }
    if e.EndCheck? || e.EndMark? || e.EndRemove? { assert ServiceOk(s, s.tasks[e.task].cli); }
    MoveKeepsTasks(s, EndStep(s, e), e.task);
  }

  lemma EndRevokeKeepsTasks(s: State, t: TaskId, gate: Gateway.TaskId)
    requires RegistryOk(s) && CanEnd(s, EndRevoke(t, gate))
    ensures TasksOk(EndStep(s, EndRevoke(t, gate)))
  {
    assert OwnerOk(s, s.tasks[t]);
    GateOnward(s, Gateway.RevokeRemove(gate, s.objects[s.tasks[t].ending.gen].token));
    MoveKeepsTasks(s, EndStep(s, EndRevoke(t, gate)), t);
  }

  lemma GetKeepsRegistry(s: State, e: Event)
    requires RegistryOk(s) && CanGet(s, e)
    ensures RegistryOk(GetStep(s, e))
  {
    var s' := GetStep(s, e);
    if e.GetRead? && e.cli in s.services { assert ServiceOk(s, e.cli); }
    forall u | u in s'.tasks
      ensures if Busy(s'.tasks[u]) then s'.lock == Some(u) && OwnerOk(s', s'.tasks[u]) else BystanderOk(s', s'.tasks[u])
    {
      if u != e.task && Busy(s.tasks[u]) { assert OwnerOk(s, s.tasks[u]); }
    }
    forall cli | cli in s'.services ensures ServiceOk(s', cli) {
      assert ServiceOk(s, cli);
    }
  }

  /** Two leases of this registry under one token are of one CLI. */
  lemma LeaseOfOne(s: State, token: Token, cli: CliId, other: CliId)
    requires LeaseOk(s.gateway, s.ledger, token, cli) && LeaseOk(s.gateway, s.ledger, token, other) && Holds(s.gateway, token, cli)
    ensures cli == other
  {
  }

  lemma SetSparesLease(s: State, e: Event, token: Token, cli: CliId)
    requires RegistryOk(s) && CanSet(s, e) && cli in s.services && LeaseOk(s.gateway, s.ledger, token, cli)
    ensures LeaseOk(SetStep(s, e).gateway, SetStep(s, e).ledger, token, cli)
  {
    if !e.SetEnter? { assert OwnerOk(s, s.tasks[e.task]); }
    if e.SetRead? && s.gateway.life.phase.Running? {
      LeaseFollows(s, Gateway.RegisterRead(e.gate, s.tasks[e.task].cli, s.tasks[e.task].cli), token, cli);
    } else if e.SetInsert? {
      LeaseFollows(s, Gateway.RegisterInsert(s.tasks[e.task].doing.gate, e.token), token, cli);
    } else if e.SetUndo? {
      var own := s.tasks[e.task].doing.token;
      if own == token && Holds(s.gateway, token, cli) { LeaseOfOne(s, token, cli, s.tasks[e.task].cli); }
      LeaseFollows(s, Gateway.RevokeRemove(e.gate, own), token, cli);
    }
  }

  lemma StoredIsOk(s: State, t: TaskId, cli: CliId)
    requires RegistryOk(s) && CanSet(s, SetStore(t)) && cli !in s.services && cli in SetStep(s, SetStore(t)).services
    ensures ServiceOk(SetStep(s, SetStore(t)), cli)
  {
    assert OwnerOk(s, s.tasks[t]);
  }

  lemma SetKeepsServices(s: State, e: Event, cli: CliId)
    requires RegistryOk(s) && CanSet(s, e) && cli in SetStep(s, e).services
    ensures ServiceOk(SetStep(s, e), cli)
  {
    if !e.SetEnter? { assert OwnerOk(s, s.tasks[e.task]); }
    if cli !in s.services {
      StoredIsOk(s, e.task, cli);
    } else {
      assert ServiceOk(s, cli);
      SetSparesLease(s, e, s.objects[s.services[cli]].token, cli);
    }
  }

  lemma RevokeSparesLease(s: State, e: Event, cli: CliId)
    requires RegistryOk(s) && CanEnd(s, e) && e.EndRevoke? && cli in s.services
    ensures var s' := EndStep(s, e); LeaseOk(s'.gateway, s'.ledger, s.objects[s.services[cli]].token, cli)
  {
    assert OwnerOk(s, s.tasks[e.task]) && ServiceOk(s, cli);
    var gone, token := s.objects[s.tasks[e.task].ending.gen].token, s.objects[s.services[cli]].token;
    if gone == token && Holds(s.gateway, token, cli) { LeaseOfOne(s, token, cli, s.tasks[e.task].cli); }
    LeaseFollows(s, Gateway.RevokeRemove(e.gate, gone), token, cli);
  }

  lemma EndKeepsServices(s: State, e: Event, cli: CliId)
    requires RegistryOk(s) && CanEnd(s, e) && cli in EndStep(s, e).services
    ensures ServiceOk(EndStep(s, e), cli)
  {
    assert ServiceOk(s, cli);
    if !e.EndEnter? {
      assert OwnerOk(s, s.tasks[e.task]);
      if e.EndMark? || e.EndRemove? { assert ServiceOk(s, s.tasks[e.task].cli); }
      if e.EndRevoke? { RevokeSparesLease(s, e, cli); }
    }
  }

  lemma SetKeepsGateway(s: State, e: Event)
    requires RegistryOk(s) && CanSet(s, e)
    ensures LeasesOk(SetStep(s, e).gateway)
  {
    if e.SetRead? {
      StepKeepsLeases(s.gateway, Gateway.RegisterRead(e.gate, s.tasks[e.task].cli, s.tasks[e.task].cli));
    } else if e.SetInsert? {
      StepKeepsLeases(s.gateway, Gateway.RegisterInsert(s.tasks[e.task].doing.gate, e.token));
    } else if e.SetUndo? {
      StepKeepsLeases(s.gateway, Gateway.RevokeRemove(e.gate, s.tasks[e.task].doing.token));
    }
  }

  lemma SetKeepsRegistry(s: State, e: Event)
    requires RegistryOk(s) && CanSet(s, e)
    ensures RegistryOk(SetStep(s, e))
  {
    if e.SetRead? {
      SetReadKeepsTasks(s, e.task, e.gate);
    } else if e.SetInsert? {
      SetInsertKeepsTasks(s, e.task, e.token);
    } else if e.SetUndo? {
      SetUndoKeepsTasks(s, e.task, e.gate);
    } else if e.SetEndpoint? || e.SetBuildFails? {
      SetLooksAround(s, e);
    } else if e.SetCreate? || e.SetStore? {
      SetMakes(s, e);
    } else {
      SetBeginsOrEnds(s, e);
    }
    SetKeepsGateway(s, e);
    forall cli | cli in SetStep(s, e).services ensures ServiceOk(SetStep(s, e), cli) {
      SetKeepsServices(s, e, cli);
    }
  }

  lemma EndKeepsRegistry(s: State, e: Event)
    requires RegistryOk(s) && CanEnd(s, e)
    ensures RegistryOk(EndStep(s, e))
  {
    if e.EndRevoke? {
      EndRevokeKeepsTasks(s, e.task, e.gate);
      StepKeepsLeases(s.gateway, Gateway.RevokeRemove(e.gate, s.objects[s.tasks[e.task].ending.gen].token));
    } else {
      EndKeepsTasks(s, e);
    }
    forall cli | cli in EndStep(s, e).services ensures ServiceOk(EndStep(s, e), cli) {
      EndKeepsServices(s, e, cli);
    }
  }

  lemma OwnerStays(s: State, g: Gateway.State, l: Ledger, task: Task)
    requires OwnerOk(s, task)
    requires forall token :: LeaseOk(s.gateway, s.ledger, token, task.cli) ==> LeaseOk(g, l, token, task.cli)
    requires forall gate :: GateOk(s.gateway, gate, task.cli) ==> GateOk(g, gate, task.cli)
    ensures OwnerOk(s.(gateway := g, ledger := l), task)
  {
  }

  lemma OperationKeepsGate(g: Gateway.State, e: Gateway.Event, gate: Gateway.TaskId, cli: CliId)
    requires GateOk(g, gate, cli) && Gateway.OperationEvent(e) && Gateway.CanOperate(g, e)
    ensures GateOk(Gateway.OperationStep(g, e), gate, cli)
  {
  }

  lemma ForeignLeaseKeepsGate(g: Gateway.State, e: Gateway.Event, gate: Gateway.TaskId, cli: CliId)
    requires Foreign(g, e) && GateOk(g, gate, cli) && Gateway.LeaseEvent(e) && Gateway.CanLease(g, e)
    ensures GateOk(Gateway.LeaseStep(g, e), gate, cli)
  {
  }

  lemma ForeignRequestKeepsGate(g: Gateway.State, e: Gateway.Event, gate: Gateway.TaskId, cli: CliId)
    requires Foreign(g, e) && GateOk(g, gate, cli) && Gateway.RequestEvent(e) && Gateway.CanRequest(g, e)
    ensures GateOk(Gateway.RequestStep(g, e), gate, cli)
  {
  }

  lemma ForeignKeepsGate(g: Gateway.State, e: Gateway.Event, gate: Gateway.TaskId, cli: CliId)
    requires Foreign(g, e) && GateOk(g, gate, cli)
    ensures GateOk(Gateway.Step(g, e), gate, cli)
  {
    if Gateway.CanHappen(g, e) {
      if Gateway.OperationEvent(e) {
        OperationKeepsGate(g, e, gate, cli);
      } else if Gateway.LeaseEvent(e) {
        ForeignLeaseKeepsGate(g, e, gate, cli);
      } else {
        ForeignRequestKeepsGate(g, e, gate, cli);
      }
    }
  }

  lemma ForeignKeepsOwner(s: State, e: Gateway.Event, task: Task)
    requires LeasesOk(s.gateway) && Foreign(s.gateway, e) && OwnerOk(s, task)
    ensures OwnerOk(Gate(s, e), task)
  {
    var s' := Gate(s, e);
    forall token | LeaseOk(s.gateway, s.ledger, token, task.cli) ensures LeaseOk(s'.gateway, s'.ledger, token, task.cli) {
      LeaseFollows(s, e, token, task.cli);
    }
    forall gate | GateOk(s.gateway, gate, task.cli) ensures GateOk(s'.gateway, gate, task.cli) {
      ForeignKeepsGate(s.gateway, e, gate, task.cli);
    }
    OwnerStays(s, s'.gateway, s'.ledger, task);
  }

  lemma ForeignKeepsRegistry(s: State, e: Gateway.Event)
    requires RegistryOk(s) && Foreign(s.gateway, e)
    ensures RegistryOk(Gate(s, e))
  {
    var s' := Gate(s, e);
    StepKeepsLeases(s.gateway, e);
    GateOnward(s, e);
    forall t | t in s'.tasks
      ensures if Busy(s'.tasks[t]) then s'.lock == Some(t) && OwnerOk(s', s'.tasks[t]) else BystanderOk(s', s'.tasks[t])
    {
      if Busy(s.tasks[t]) { ForeignKeepsOwner(s, e, s.tasks[t]); } else { assert BystanderOk(s, s.tasks[t]); }
    }
    forall cli | cli in s'.services ensures ServiceOk(s', cli) {
      assert ServiceOk(s, cli);
      LeaseFollows(s, e, s.objects[s.services[cli]].token, cli);
    }
  }

  lemma StepKeepsRegistry(s: State, e: Event)
    requires RegistryOk(s)
    ensures RegistryOk(Step(s, e))
  {
    if e.Other? {
      if Foreign(s.gateway, e.event) { ForeignKeepsRegistry(s, e.event); }
    } else if CanSet(s, e) {
      SetKeepsRegistry(s, e);
    } else if CanEnd(s, e) {
      EndKeepsRegistry(s, e);
    } else if CanGet(s, e) {
      GetKeepsRegistry(s, e);
    }
  }

  lemma {:induction false} RunKeepsRegistry(s: State, es: seq<Event>)
    requires Initial(s)
    ensures RegistryOk(RunFrom(s, es))
  {
    if es != [] {
      RunKeepsRegistry(s, es[..|es| - 1]);
      StepKeepsRegistry(RunFrom(s, es[..|es| - 1]), es[|es| - 1]);
    }
  }

  /** A state some run leads to, from a registry with nothing registered. */
  ghost predicate Reachable(r: State) { exists s, es :: Initial(s) && r == RunFrom(s, es) }

  lemma ReachableOk(r: State)
    requires Reachable(r)
    ensures RegistryOk(r) && AllAccounted(r) && AllDated(r.gateway, r.ledger)
  {
    var s, es :| Initial(s) && r == RunFrom(s, es);
    RunKeepsRegistry(s, es);
    RunKeepsAccounts(s, es);
    RunKeepsDated(s, es);
  }

  /** Whenever no `set` or `terminate` is under way, every registered service is ready, and
      its lease is in the gateway's table exactly if no start or shutdown has cleared the
      table since the lease was inserted. */
  lemma RegisteredIsReadyAndLeasedIff(r: State, cli: CliId)
    requires Reachable(r) && r.lock.None? && cli in r.services
    ensures Made(r, r.services[cli], cli, false) && r.objects[r.services[cli]].token in r.ledger.leasedAt
    ensures var token := r.objects[r.services[cli]].token;
            Holds(r.gateway, token, cli) <==> r.ledger.leasedAt[token] == r.ledger.clears
  {
    ReachableOk(r);
    assert ServiceOk(r, cli);
  }

  // ------------------------------------------------- which leases the gateway accepts

  /** The lease is in the table, and a request that presents it now passes the checks. */
  predicate Works(g: Gateway.State, token: Token, cli: CliId) {
    Holds(g, token, cli) && Gateway.Accepts(g, g.clients[token])
  }

  /** A lease that has been cleared away is of a past generation whenever the gateway runs. */
  predicate Dated(g: Gateway.State, l: Ledger, token: Token)
    requires token in l.leasedAt
  {
    && token in g.issued && l.leasedAt[token] <= l.clears
    && (l.leasedAt[token] < l.clears && g.life.phase.Running? ==> g.issued[token] < g.life.generation)
  }

  ghost predicate AllDated(g: Gateway.State, l: Ledger) {
    LifeOk(g) && LeasesOk(g) && forall token <- l.leasedAt :: Dated(g, l, token)
  }

  lemma ClearingIsNotRunning(g: Gateway.State, e: Gateway.Event)
    requires LifeOk(g) && ClearsTable(g, e)
    ensures !Gateway.Step(g, e).life.phase.Running?
  {
    assert OpOk(g, g.tasks[e.task]);
  }

  /** The gateway begins to run only by the commit of a start. */
  lemma RunningBegins(g: Gateway.State, e: Gateway.Event)
    requires !g.life.phase.Running? && Gateway.Step(g, e).life.phase.Running?
    ensures Gateway.Step(g, e).life.generation == g.life.generation + 1
  {
    if Gateway.CanHappen(g, e) {
      if Gateway.LeaseEvent(e) { Gateway.LeaseFrame(g, e); } else if Gateway.RequestEvent(e) { Gateway.RequestFrame(g, e); }
    }
  }

  lemma GateKeepsDated(s: State, e: Gateway.Event)
    requires AllDated(s.gateway, s.ledger)
    ensures AllDated(Gate(s, e).gateway, Gate(s, e).ledger)
  {
    var g, s' := s.gateway, Gate(s, e);
    StepKeepsLife(g, e);
    StepKeepsLeases(g, e);
    StepGrows(g, e);
    if ClearsTable(g, e) { ClearingIsNotRunning(g, e); }
    if !g.life.phase.Running? && s'.gateway.life.phase.Running? { RunningBegins(g, e); }
    forall token | token in s'.ledger.leasedAt ensures Dated(s'.gateway, s'.ledger, token) {
      assert Dated(g, s.ledger, token);
    }
  }

  lemma LeaseKeepsDated(s: State, gate: Gateway.TaskId, token: Token)
    requires AllDated(s.gateway, s.ledger) && Gateway.CanHappen(s.gateway, Gateway.RegisterInsert(gate, token))
    ensures AllDated(Lease(s, gate, token).gateway, Lease(s, gate, token).ledger)
  {
    var s' := Lease(s, gate, token);
    GateKeepsDated(s, Gateway.RegisterInsert(gate, token));
    forall u | u in s'.ledger.leasedAt ensures Dated(s'.gateway, s'.ledger, u) {
      if u != token { assert Dated(Gate(s, Gateway.RegisterInsert(gate, token)).gateway, s.ledger, u); }
    }
  }

  lemma SetKeepsDated(s: State, e: Event)
    requires AllDated(s.gateway, s.ledger) && CanSet(s, e)
    ensures AllDated(SetStep(s, e).gateway, SetStep(s, e).ledger)
  {
    if e.SetRead? { GateKeepsDated(s, Gateway.RegisterRead(e.gate, s.tasks[e.task].cli, s.tasks[e.task].cli)); }
    else if e.SetInsert? { LeaseKeepsDated(s, s.tasks[e.task].doing.gate, e.token); }
    else if e.SetUndo? { GateKeepsDated(s, Gateway.RevokeRemove(e.gate, s.tasks[e.task].doing.token)); }
  }

  lemma StepKeepsDated(s: State, e: Event)
    requires AllDated(s.gateway, s.ledger)
    ensures AllDated(Step(s, e).gateway, Step(s, e).ledger)
  {
    if e.Other? {
      GateKeepsDated(s, e.event);
    } else if CanSet(s, e) {
      SetKeepsDated(s, e);
    } else if CanEnd(s, e) && e.EndRevoke? {
      GateKeepsDated(s, Gateway.RevokeRemove(e.gate, s.objects[s.tasks[e.task].ending.gen].token));
    }
  }

  lemma {:induction false} RunKeepsDated(s: State, es: seq<Event>)
    requires Initial(s)
    ensures AllDated(RunFrom(s, es).gateway, RunFrom(s, es).ledger)
  {
    if es != [] {
      RunKeepsDated(s, es[..|es| - 1]);
      StepKeepsDated(RunFrom(s, es[..|es| - 1]), es[|es| - 1]);
    }
  }

  lemma WorksIffCurrent(r: State, token: Token, cli: CliId)
    requires AllDated(r.gateway, r.ledger) && LeaseOk(r.gateway, r.ledger, token, cli) && r.gateway.life.phase.Running?
    ensures Works(r.gateway, token, cli) <==> r.gateway.issued[token] == r.gateway.life.generation
  {
    assert Dated(r.gateway, r.ledger, token);
    if Holds(r.gateway, token, cli) { assert Known(r.gateway, token, r.gateway.clients[token]); }
  }

  /** While the gateway runs, a registered service's lease works exactly if no start has
      committed since its registration read the generation. */
  lemma RegisteredLeaseWorksIff(r: State, cli: CliId)
    requires Reachable(r) && r.lock.None? && cli in r.services && r.gateway.life.phase.Running?
    ensures r.services[cli] in r.objects && r.objects[r.services[cli]].token in r.gateway.issued
    ensures var token := r.objects[r.services[cli]].token;
            Works(r.gateway, token, cli) <==> r.gateway.issued[token] == r.gateway.life.generation
  {
    ReachableOk(r);
    assert ServiceOk(r, cli);
    WorksIffCurrent(r, r.objects[r.services[cli]].token, cli);
  }

  /** Only `get` can meet a service that is terminating; no insertion is ever lost. */
  lemma SetAndTerminateNeverMeetTermination(r: State, t: TaskId)
    requires Reachable(r) && t in r.tasks && r.tasks[t].Done?
    ensures !r.tasks[t].outcome.LostInsert? && (r.tasks[t].outcome.IsTerminating? ==> r.tasks[t].caller.Getter?)
  {
    ReachableOk(r);
    assert BystanderOk(r, r.tasks[t]);
  }

  lemma SetKeepsDead(s: State, e: Event, token: Token)
    requires CanSet(s, e) && Dead(s.gateway, token)
    ensures Dead(SetStep(s, e).gateway, token)
  {
    forall e' { DeadStaysDead(s.gateway, e', token); }
  }

  lemma StepKeepsDead(s: State, e: Event, token: Token)
    requires Dead(s.gateway, token)
    ensures Dead(Step(s, e).gateway, token)
  {
    if !e.Other? && CanSet(s, e) { SetKeepsDead(s, e, token); }
    forall e' { DeadStaysDead(s.gateway, e', token); }
  }

  lemma {:induction false} RunKeepsDead(s: State, es: seq<Event>, token: Token)
    requires Dead(s.gateway, token)
    ensures Dead(RunFrom(s, es).gateway, token)
  {
    if es != [] {
      RunKeepsDead(s, es[..|es| - 1], token);
      StepKeepsDead(RunFrom(s, es[..|es| - 1]), es[|es| - 1], token);
    }
  }

  /** A lease taken by a `set` that failed is revoked, and never works again. */
  lemma FailedSetLeavesNoLease(r: State, t: TaskId, token: Token, later: seq<Event>)
    requires Reachable(r) && t in r.tasks && r.tasks[t] == Done(Setter, SetFailed(Some(token)))
    ensures token !in RunFrom(r, later).gateway.clients
  {
    ReachableOk(r);
    assert BystanderOk(r, r.tasks[t]);
    RunKeepsDead(r, later, token);
  }

  // ---------------------------------------------------------------- generations

  /** The object `gen` of `cli` is gone for good: what is or will be registered is newer. */
  ghost predicate Retired(s: State, cli: CliId, gen: Gen) {
    && gen < s.nextGen
    && (cli in s.services ==> gen < s.services[cli])
    && (forall t <- s.tasks :: s.tasks[t].Setting? && s.tasks[t].cli == cli && s.tasks[t].doing.Created? ==> gen < s.tasks[t].doing.gen)
  }

  predicate Current(s: State, cli: CliId, gen: Gen) { cli in s.services && s.services[cli] == gen && gen < s.nextGen }

  lemma MakingKeepsRetired(s: State, e: Event, cli: CliId, gen: Gen)
    requires Retired(s, cli, gen) && CanSet(s, e) && (e.SetCreate? || e.SetStore?)
    ensures Retired(SetStep(s, e), cli, gen)
  {
  }

  lemma SetKeepsRetired(s: State, e: Event, cli: CliId, gen: Gen)
    requires Retired(s, cli, gen) && CanSet(s, e)
    ensures Retired(SetStep(s, e), cli, gen)
  {
    if e.SetCreate? || e.SetStore? { MakingKeepsRetired(s, e, cli, gen); }
  }

  lemma EndKeepsRetired(s: State, e: Event, cli: CliId, gen: Gen)
    requires Retired(s, cli, gen) && CanEnd(s, e)
    ensures Retired(EndStep(s, e), cli, gen)
  {
  }

  lemma StepKeepsRetired(s: State, e: Event, cli: CliId, gen: Gen)
    requires Retired(s, cli, gen)
    ensures Retired(Step(s, e), cli, gen)
  {
    if e.Other? {
    } else if CanSet(s, e) {
      SetKeepsRetired(s, e, cli, gen);
    } else if CanEnd(s, e) {
      EndKeepsRetired(s, e, cli, gen);
    }
  }

  lemma SetRetires(s: State, e: Event, cli: CliId, gen: Gen)
    requires RegistryOk(s) && Current(s, cli, gen) && CanSet(s, e)
    ensures Current(SetStep(s, e), cli, gen)
  {
    if !e.SetEnter? { assert OwnerOk(s, s.tasks[e.task]); }
  }

  /** While a service is registered nobody is making another one for the same CLI. */
  lemma NoneInTheMaking(s: State, cli: CliId, t: TaskId)
    requires RegistryOk(s) && cli in s.services && t in s.tasks && s.tasks[t].Setting? && s.tasks[t].cli == cli
    ensures !s.tasks[t].doing.Created?
  {
    assert OwnerOk(s, s.tasks[t]);
  }

  ghost predicate NoneMade(s: State, cli: CliId) {
    forall t <- s.tasks :: s.tasks[t].Setting? && s.tasks[t].cli == cli ==> !s.tasks[t].doing.Created?
  }

  lemma EndRetires(s: State, e: Event, cli: CliId, gen: Gen)
    requires Current(s, cli, gen) && CanEnd(s, e) && NoneMade(s, cli)
    ensures Current(EndStep(s, e), cli, gen) || Retired(EndStep(s, e), cli, gen)
  {
  }

  lemma StepRetires(s: State, e: Event, cli: CliId, gen: Gen)
    requires RegistryOk(s) && Current(s, cli, gen)
    ensures Current(Step(s, e), cli, gen) || Retired(Step(s, e), cli, gen)
  {
    forall t | t in s.tasks && s.tasks[t].Setting? && s.tasks[t].cli == cli ensures !s.tasks[t].doing.Created? {
      NoneInTheMaking(s, cli, t);
    }
    if e.Other? {
    } else if CanSet(s, e) {
      SetRetires(s, e, cli, gen);
    } else if CanEnd(s, e) {
      EndRetires(s, e, cli, gen);
    }
  }

  lemma {:induction false} RunRetires(s: State, es: seq<Event>, cli: CliId, gen: Gen)
    requires RegistryOk(s) && (Current(s, cli, gen) || Retired(s, cli, gen))
    ensures RegistryOk(RunFrom(s, es)) && (Current(RunFrom(s, es), cli, gen) || Retired(RunFrom(s, es), cli, gen))
    ensures Retired(s, cli, gen) ==> Retired(RunFrom(s, es), cli, gen)
  {
    if es != [] {
      var r := RunFrom(s, es[..|es| - 1]);
      RunRetires(s, es[..|es| - 1], cli, gen);
      StepKeepsRegistry(r, es[|es| - 1]);
      if Retired(r, cli, gen) { StepKeepsRetired(r, es[|es| - 1], cli, gen); } else { StepRetires(r, es[|es| - 1], cli, gen); }
    }
  }

  /** Once a registered service has been removed, any later registration of the same CLI
      has a strictly larger generation. */
  lemma ReRegistrationIsNewer(r: State, removal: seq<Event>, s: State, later: seq<Event>, cli: CliId)
    requires Reachable(r) && cli in r.services
    requires s == RunFrom(r, removal) && cli !in s.services && cli in RunFrom(s, later).services
    ensures r.services[cli] < RunFrom(s, later).services[cli]
  {
    ReachableOk(r);
    assert ServiceOk(r, cli);
    RunRetires(r, removal, cli, r.services[cli]);
    RunRetires(s, later, cli, r.services[cli]);
  }

  // --------------------------------------------------------------- orphan leases

  predicate OwnerHolds(s: State, token: Token) {
    && s.lock.Some? && s.lock.value in s.tasks
    && match s.tasks[s.lock.value]
       case Setting(_, Leased(own)) => own == token
       case Setting(_, Building(own)) => own == token
       case Setting(_, Undo(own)) => own == token
       case Setting(_, Created(gen)) => gen in s.objects && s.objects[gen].token == token
       case Ending(_, Removed(gen)) => gen in s.objects && s.objects[gen].token == token
       case Ending(_, Revoke(gen)) => gen in s.objects && s.objects[gen].token == token
       case _ => false
  }

  predicate ServiceHolds(s: State, token: Token, cli: CliId) {
    cli in s.services && s.services[cli] in s.objects && s.objects[s.services[cli]].token == token
  }

  /** A `terminate` gave up between removing the service and revoking this lease. */
  ghost predicate Orphaned(s: State, token: Token) {
    exists t :: t in s.tasks && s.tasks[t] == Done(Ender, EndFailed(token))
  }

  ghost predicate Accounted(s: State, token: Token, cli: CliId) {
    ServiceHolds(s, token, cli) || OwnerHolds(s, token) || Orphaned(s, token)
  }

  ghost predicate AllAccounted(s: State) {
    forall token, cli :: Holds(s.gateway, token, cli) ==> Accounted(s, token, cli)
  }

  /** Only an insertion makes a lease. */
  lemma NoNewLease(g: Gateway.State, e: Gateway.Event, token: Token, cli: CliId)
    requires Holds(Gateway.Step(g, e), token, cli)
    requires e.RegisterInsert? && Gateway.CanHappen(g, e) ==> e.token != token || g.tasks[e.task].engine != cli || g.tasks[e.task].instance != cli
    ensures Holds(g, token, cli)
  {
    if Gateway.CanHappen(g, e) {
      if Gateway.OperationEvent(e) {
        Gateway.OperationFrame(g, e);
      } else if Gateway.LeaseEvent(e) {
      } else {
        Gateway.RequestFrame(g, e);
      }
    }
  }

  predicate InGateway(e: Event) { e.SetRead? || e.SetInsert? || e.SetUndo? || e.EndRevoke? || e.Other? }

  lemma SetLeavesDone(s: State, e: Event, t: TaskId)
    requires CanSet(s, e) && t in s.tasks && s.tasks[t].Done?
    ensures t in SetStep(s, e).tasks && SetStep(s, e).tasks[t] == s.tasks[t]
  {
  }

  /** A finished call's result is never overwritten. */
  lemma DoneStays(s: State, e: Event, t: TaskId)
    requires t in s.tasks && s.tasks[t].Done?
    ensures t in Step(s, e).tasks && Step(s, e).tasks[t] == s.tasks[t]
  {
    if !e.Other? && CanSet(s, e) { SetLeavesDone(s, e, t); }
  }

  lemma OrphansStay(s: State, e: Event, token: Token)
    requires Orphaned(s, token)
    ensures Orphaned(Step(s, e), token)
  {
    var t :| t in s.tasks && s.tasks[t] == Done(Ender, EndFailed(token));
    DoneStays(s, e, t);
  }

  /** Making the object and putting it in the registry carry the lease along. */
  lemma MakingAccounts(s: State, e: Event, token: Token, cli: CliId)
    requires RegistryOk(s) && CanSet(s, e) && (e.SetCreate? || e.SetStore?)
    requires ServiceHolds(s, token, cli) || (OwnerHolds(s, token) && Holds(s.gateway, token, cli))
    ensures ServiceHolds(SetStep(s, e), token, cli) || OwnerHolds(SetStep(s, e), token)
  {
    assert OwnerOk(s, s.tasks[e.task]);
  }

  lemma MovingAccounts(s: State, e: Event, token: Token, cli: CliId)
    requires RegistryOk(s) && CanSet(s, e) && !InGateway(e) && !e.SetCreate? && !e.SetStore?
    requires ServiceHolds(s, token, cli) || OwnerHolds(s, token)
    ensures ServiceHolds(SetStep(s, e), token, cli) || OwnerHolds(SetStep(s, e), token)
  {
    if !e.SetEnter? { assert OwnerOk(s, s.tasks[e.task]); }
  }

  lemma EndAccounts(s: State, e: Event, token: Token, cli: CliId)
    requires RegistryOk(s) && CanEnd(s, e) && !InGateway(e) && (ServiceHolds(s, token, cli) || OwnerHolds(s, token))
    ensures Accounted(EndStep(s, e), token, cli)
  {
    var s' := EndStep(s, e);
    if !e.EndEnter? { assert OwnerOk(s, s.tasks[e.task]); }
    if e.EndMark? || e.EndRemove? { assert ServiceOk(s, s.tasks[e.task].cli); }
    if e.EndChildren? && !e.ok && OwnerHolds(s, token) { assert s'.tasks[e.task] == Done(Ender, EndFailed(token)); }
  }

  lemma InsertAccounts(s: State, t: TaskId, own: Token, token: Token, cli: CliId)
    requires RegistryOk(s) && CanSet(s, SetInsert(t, own))
    requires Holds(SetStep(s, SetInsert(t, own)).gateway, token, cli) && AllAccounted(s)
    ensures Accounted(SetStep(s, SetInsert(t, own)), token, cli)
  {
    assert OwnerOk(s, s.tasks[t]);
    if token != own {
      NoNewLease(s.gateway, Gateway.RegisterInsert(s.tasks[t].doing.gate, own), token, cli);
      assert Accounted(s, token, cli);
      if Orphaned(s, token) { OrphansStay(s, SetInsert(t, own), token); }
    }
  }

  lemma ReadAccounts(s: State, t: TaskId, gate: Gateway.TaskId, token: Token, cli: CliId)
    requires RegistryOk(s) && CanSet(s, SetRead(t, gate))
    requires Holds(SetStep(s, SetRead(t, gate)).gateway, token, cli) && AllAccounted(s)
    ensures Accounted(SetStep(s, SetRead(t, gate)), token, cli)
  {
    assert Accounted(s, token, cli);
    if Orphaned(s, token) { OrphansStay(s, SetRead(t, gate), token); }
  }

  lemma UndoAccounts(s: State, t: TaskId, gate: Gateway.TaskId, token: Token, cli: CliId)
    requires RegistryOk(s) && CanSet(s, SetUndo(t, gate))
    requires Holds(SetStep(s, SetUndo(t, gate)).gateway, token, cli) && AllAccounted(s)
    ensures Accounted(SetStep(s, SetUndo(t, gate)), token, cli)
  {
    assert OwnerOk(s, s.tasks[t]);
    assert Accounted(s, token, cli);
    if Orphaned(s, token) { OrphansStay(s, SetUndo(t, gate), token); }
  }

  lemma RevokeAccounts(s: State, t: TaskId, gate: Gateway.TaskId, token: Token, cli: CliId)
    requires RegistryOk(s) && CanEnd(s, EndRevoke(t, gate))
    requires Holds(EndStep(s, EndRevoke(t, gate)).gateway, token, cli) && AllAccounted(s)
    ensures Accounted(EndStep(s, EndRevoke(t, gate)), token, cli)
  {
    assert OwnerOk(s, s.tasks[t]);
    assert Accounted(s, token, cli);
    if Orphaned(s, token) { OrphansStay(s, EndRevoke(t, gate), token); }
  }

  lemma ForeignAccounts(s: State, e: Gateway.Event, token: Token, cli: CliId)
    requires Foreign(s.gateway, e) && Holds(Gate(s, e).gateway, token, cli) && AllAccounted(s)
    ensures Accounted(Gate(s, e), token, cli)
  {
    NoNewLease(s.gateway, e, token, cli);
    assert Accounted(s, token, cli);
    if Orphaned(s, token) {
      var t :| t in s.tasks && s.tasks[t] == Done(Ender, EndFailed(token));
      assert Gate(s, e).tasks[t] == Done(Ender, EndFailed(token));
    }
  }

  lemma LocalAccounts(s: State, e: Event, token: Token, cli: CliId)
    requires RegistryOk(s) && !InGateway(e) && Holds(s.gateway, token, cli) && AllAccounted(s)
    ensures Accounted(Step(s, e), token, cli)
  {
    assert Accounted(s, token, cli);
    if Orphaned(s, token) {
      OrphansStay(s, e, token);
    } else if CanSet(s, e) {
      if e.SetCreate? || e.SetStore? { MakingAccounts(s, e, token, cli); } else { MovingAccounts(s, e, token, cli); }
    } else if CanEnd(s, e) {
      EndAccounts(s, e, token, cli);
    } else if CanGet(s, e) {
      GetAccounts(s, e, token, cli);
    }
  }

  lemma GetAccounts(s: State, e: Event, token: Token, cli: CliId)
    requires RegistryOk(s) && CanGet(s, e) && (ServiceHolds(s, token, cli) || OwnerHolds(s, token))
    ensures ServiceHolds(GetStep(s, e), token, cli) || OwnerHolds(GetStep(s, e), token)
  {
  }

  lemma SetInGatewayAccounts(s: State, e: Event, token: Token, cli: CliId)
    requires RegistryOk(s) && AllAccounted(s) && CanSet(s, e) && InGateway(e) && Holds(SetStep(s, e).gateway, token, cli)
    ensures Accounted(SetStep(s, e), token, cli)
  {
    if e.SetRead? { ReadAccounts(s, e.task, e.gate, token, cli); }
    else if e.SetInsert? { InsertAccounts(s, e.task, e.token, token, cli); }
    else { UndoAccounts(s, e.task, e.gate, token, cli); }
  }

  lemma StepKeepsAccounts(s: State, e: Event)
    requires RegistryOk(s) && AllAccounted(s)
    ensures AllAccounted(Step(s, e))
  {
    forall token, cli | Holds(Step(s, e).gateway, token, cli) ensures Accounted(Step(s, e), token, cli) {
      if e.Other? {
        if Foreign(s.gateway, e.event) { ForeignAccounts(s, e.event, token, cli); }
      } else if !InGateway(e) {
        LocalAccounts(s, e, token, cli);
      } else if CanSet(s, e) {
        SetInGatewayAccounts(s, e, token, cli);
      } else if CanEnd(s, e) {
        RevokeAccounts(s, e.task, e.gate, token, cli);
      }
    }
  }

  lemma {:induction false} RunKeepsAccounts(s: State, es: seq<Event>)
    requires Initial(s)
    ensures AllAccounted(RunFrom(s, es))
  {
    if es != [] {
      RunKeepsAccounts(s, es[..|es| - 1]);
      RunKeepsRegistry(s, es[..|es| - 1]);
      StepKeepsAccounts(RunFrom(s, es[..|es| - 1]), es[|es| - 1]);
    }
  }

  /** With the mutation lock free and no `terminate` having given up halfway, the leases of
      CLI services are exactly those of the registered services that no start or shutdown
      has cleared away since they were inserted. */
  lemma LeasesAreExactlyTheServices(r: State, token: Token, cli: CliId)
    requires Reachable(r) && r.lock.None? && !Orphaned(r, token)
    ensures Holds(r.gateway, token, cli) <==>
            ServiceHolds(r, token, cli) && token in r.ledger.leasedAt && r.ledger.leasedAt[token] == r.ledger.clears
  {
    ReachableOk(r);
    if ServiceHolds(r, token, cli) { assert ServiceOk(r, cli); }
    if Holds(r.gateway, token, cli) { assert Accounted(r, token, cli); }
  }

  /** The gap: a `terminate` that fails to stop the service's children leaves the service
      unregistered, the lock free and the lease as it was, so live unless the table has been
      cleared; only the next lease inserted for the same CLI, or a clearing, takes it out. */
  lemma FailedTerminateOrphansLease(r: State, t: TaskId)
    requires Reachable(r) && CanEnd(r, EndChildren(t, false))
    ensures var r' := Step(r, EndChildren(t, false));
            var token := r.objects[r.tasks[t].ending.gen].token;
            && r'.lock.None? && r.tasks[t].cli !in r'.services && Orphaned(r', token)
            && token in r'.ledger.leasedAt && token in r'.gateway.issued
            && (Holds(r'.gateway, token, r.tasks[t].cli) <==> r'.ledger.leasedAt[token] == r'.ledger.clears)
            && (r'.gateway.life.phase.Running? ==>
                  (Works(r'.gateway, token, r.tasks[t].cli) <==> r'.gateway.issued[token] == r'.gateway.life.generation))
  {
    ReachableOk(r);
    assert OwnerOk(r, r.tasks[t]);
    var token := r.objects[r.tasks[t].ending.gen].token;
    var r' := Step(r, EndChildren(t, false));
    assert r'.tasks[t] == Done(Ender, EndFailed(token));
    if r.gateway.life.phase.Running? { WorksIffCurrent(r, token, r.tasks[t].cli); }
  }

  lemma NextSetReplacesOrphan(r: State, t: TaskId, own: Token, token: Token)
    requires Reachable(r) && CanSet(r, SetInsert(t, own))
    ensures Holds(Step(r, SetInsert(t, own)).gateway, token, r.tasks[t].cli) <==> token == own
  {
    ReachableOk(r);
    assert OwnerOk(r, r.tasks[t]);
    InsertHolds(r.gateway, r.tasks[t].doing.gate, own, r.tasks[t].cli);
  }

  // ------------------------------------------------------------------- the answers

  /** Left alone, `get` returns the registered service, ready as it is, and reports any other
      CLI as not registered. */
  lemma GetAnswers(r: State, t: TaskId, cli: CliId)
    requires Reachable(r) && r.lock.None? && t !in r.tasks
    ensures var r' := Step(Step(r, GetRead(t, cli)), GetCheck(t));
            && t in r'.tasks
            && r'.tasks[t] == Done(Getter, if cli in r.services then Returned(r.services[cli]) else NotRegistered)
  {
    ReachableOk(r);
    if cli in r.services {
      assert ServiceOk(r, cli);
      GetReportsTermination(Go(r, t, Getting(cli, r.services[cli])), t);
    }
  }

  /** With a `terminate` at work on it, `get` reports the service as terminating from the
      moment it is marked, even if it was looked up before. */
  lemma GetReportsTermination(s: State, t: TaskId)
    requires t in s.tasks && s.tasks[t].Getting? && s.tasks[t].gen in s.objects
    ensures var s' := Step(s, GetCheck(t));
            t in s'.tasks && (s'.tasks[t] == Done(Getter, IsTerminating) <==> s.objects[s.tasks[t].gen].terminating)
            && (s'.tasks[t] == Done(Getter, Returned(s.tasks[t].gen)) <==> !s.objects[s.tasks[t].gen].terminating)
  {
  }

  /** Terminating what is not registered fails as such, and frees the lock at once. */
  lemma TerminateNeedsService(s: State, t: TaskId, cli: CliId)
    requires t !in s.tasks && s.lock.None?
    ensures var s' := Step(s, EndEnter(t, cli));
            && t in s'.tasks && (s'.tasks[t] == Done(Ender, NotRegistered) <==> cli !in s.services)
            && s'.services == s.services && (s'.lock.None? <==> cli !in s.services)
  {
  }

  /** A `set` may give up before it has a lease: it fails, frees the lock and changes nothing. */
  lemma GivingUpChangesNothing(s: State, t: TaskId)
    requires t in s.tasks && s.tasks[t].Setting? && s.tasks[t].doing.Fresh?
    ensures Step(s, SetGivesUp(t)) == s.(tasks := s.tasks[t := Done(Setter, SetFailed(None))], lock := None)
  {
  }

  /** A service that cannot be built costs its lease: the `set` fails, the lock is free, and
      the lease has left the table. */
  lemma FailedBuildRevokes(s: State, t: TaskId, gate: Gateway.TaskId)
    requires t in s.tasks && s.tasks[t].Setting? && s.tasks[t].doing.Building?
    requires gate !in s.gateway.tasks && s.tasks[t].doing.token in s.gateway.clients
    ensures var token := s.tasks[t].doing.token; var s' := Step(Step(s, SetBuildFails(t)), SetUndo(t, gate));
            && s'.services == s.services && s'.lock.None? && t in s'.tasks && s'.tasks[t] == Done(Setter, SetFailed(Some(token)))
            && s'.gateway.clients == s.gateway.clients - {token}
  {
    var s1 := Go(s, t, Setting(s.tasks[t].cli, Undo(s.tasks[t].doing.token)));
    assert Step(s, SetBuildFails(t)) == s1;
    assert CanSet(s1, SetUndo(t, gate));
  }

  /** `get` looks up whatever is going on. */
  lemma GetNeedsNoLock(s: State, t: TaskId, cli: CliId)
    requires t !in s.tasks
    ensures var s' := Step(s, GetRead(t, cli));
            && s'.lock == s.lock && s'.services == s.services && t in s'.tasks
            && s'.tasks[t] == if cli in s.services then Getting(cli, s.services[cli]) else Done(Getter, NotRegistered)
  {
  }
}
