/** Runs of the registry that end with a lease in the wrong place: one that still works for a
    service whose `terminate` failed to stop its children, and one that never works, of a
    service registered across a restart of the gateway. */
module CliRegistryRuns {
  import opened Wrappers
  import Gateway
  import GatewayRuns
  import opened GatewayLeases
  import opened CliRegistry
  import opened CliRegistrySafety

  lemma RunExtends(s: State, es: seq<Event>, e: Event)
    ensures RunFrom(s, es + [e]) == Step(RunFrom(s, es), e)
  {
    assert (es + [e])[..|es + [e]| - 1] == es;
  }

  /** Two steps with known results, after a run with a known result. */
  lemma ThenTwo(s: State, es: seq<Event>, s0: State, a: Event, s1: State, b: Event, s2: State)
    requires RunFrom(s, es) == s0 && Step(s0, a) == s1 && Step(s1, b) == s2
    ensures RunFrom(s, es + [a, b]) == s2
  {
    RunExtends(s, es, a);
    RunExtends(s, es + [a], b);
    assert es + [a] + [b] == es + [a, b];
  }

  const CLI := "opencode"

  /** Nothing registered, next to a gateway that has just started. */
  function Bare(): State { State(map[], map[], 0, None, map[], GatewayRuns.Running1(), Ledger(0, map[])) }

  lemma BareIsInitial()
    ensures Initial(Bare())
  {
    GatewayRuns.StartsUp();
    RunKeepsLeases(GatewayRuns.Started());
    RunningIffAddress(GatewayRuns.Started());
  }

  /** A gateway with the lease of the CLI. */
  function Leased1(): Gateway.State {
    GatewayRuns.Running1().(clients := map["token" := Gateway.Client(CLI, CLI, 1, None)], issued := map["token" := 1])
  }

  function Asking(): State {
    Bare().(lock := Some(0), tasks := map[0 := Setting(CLI, Reading(1))],
            gateway := GatewayRuns.Running1().(tasks := map[1 := Gateway.Registering(CLI, CLI, 1)]))
  }

  /** The `set` of task 0 after its lease. */
  function Settled(stage: SetStage): State {
    Bare().(lock := Some(0), tasks := map[0 := Setting(CLI, stage)], gateway := Leased1(), ledger := Ledger(0, map["token" := 0]))
  }

  function Built(services: map<CliId, Gen>, stage: SetStage): State {
    Settled(stage).(services := services, objects := map[0 := Service(CLI, "token", false)], nextGen := 1)
  }

  /** Registered; task 1 may be terminating it. */
  function Registered(terminating: bool, lock: Option<TaskId>, tasks: map<TaskId, Task>): State {
    State(map[CLI := 0], map[0 := Service(CLI, "token", terminating)], 1, lock, tasks, Leased1(), Ledger(0, map["token" := 0]))
  }

  function Finished(): Task { Done(Setter, Returned(0)) }

  function Ends(terminating: bool, stage: EndStage): State {
    Registered(terminating, Some(1), map[0 := Finished(), 1 := Ending(CLI, stage)])
  }

  function Removed1(): State { Ends(true, Removed(0)).(services := map[]) }

  lemma SetAsks()
    ensures var entered := Bare().(lock := Some(0), tasks := map[0 := Setting(CLI, Fresh)]);
            Step(Bare(), SetEnter(0, CLI)) == entered && Step(entered, SetRead(0, 1)) == Asking()
  {
  }

  lemma SetLeases()
    ensures Step(Asking(), SetInsert(0, "token")) == Settled(Leased("token"))
  {
    LeaseIsInserted();
  }

  lemma LeaseIsInserted()
    ensures var g := Asking().gateway;
            Gateway.CanHappen(g, Gateway.RegisterInsert(1, "token")) && Gateway.Step(g, Gateway.RegisterInsert(1, "token")) == Leased1()
  {
    assert Gateway.LeasesOf(map[], CLI, CLI) == {};
  }

  lemma SetFindsEndpoint()
    ensures Step(Settled(Leased("token")), SetEndpoint(0)) == Settled(Building("token"))
  {
  }

  lemma SetBuilds()
    ensures Step(Settled(Building("token")), SetCreate(0)) == Built(map[], Created(0))
    ensures Step(Built(map[], Created(0)), SetStore(0)) == Built(map[CLI := 0], CliRegistry.Stored(0, 0))
  {
  }

  lemma SetReturns()
    ensures Step(Built(map[CLI := 0], CliRegistry.Stored(0, 0)), SetConclude(0)) == Registered(false, None, map[0 := Finished()])
  {
  }

  lemma EndBegins()
    ensures Step(Registered(false, None, map[0 := Finished()]), EndEnter(1, CLI)) == Ends(false, Found(0))
    ensures Step(Ends(false, Found(0)), EndCheck(1)) == Ends(false, CliRegistry.Checked(0))
  {
  }

  lemma EndRemoves()
    ensures Step(Ends(false, CliRegistry.Checked(0)), EndMark(1)) == Ends(true, Marked(0))
    ensures Step(Ends(true, Marked(0)), EndRemove(1)) == Removed1()
  {
  }

  function Terminating(): seq<Event> {
    [] + [SetEnter(0, CLI), SetRead(0, 1)] + [SetInsert(0, "token"), SetEndpoint(0)] + [SetCreate(0), SetStore(0)]
    + [SetConclude(0), EndEnter(1, CLI)] + [EndCheck(1), EndMark(1)] + [EndRemove(1)]
  }

  lemma ReachesRemoval()
    ensures RunFrom(Bare(), Terminating()) == Removed1()
  {
    SetAsks();
    SetLeases();
    SetFindsEndpoint();
    SetBuilds();
    SetReturns();
    EndBegins();
    EndRemoves();
    var s := Bare();
    var a, b, c := [SetEnter(0, CLI), SetRead(0, 1)], [SetInsert(0, "token"), SetEndpoint(0)], [SetCreate(0), SetStore(0)];
    var d, f := [SetConclude(0), EndEnter(1, CLI)], [EndCheck(1), EndMark(1)];
    ThenTwo(s, [], s, a[0], Step(s, a[0]), a[1], Asking());
    ThenTwo(s, [] + a, Asking(), b[0], Settled(Leased("token")), b[1], Settled(Building("token")));
    ThenTwo(s, [] + a + b, Settled(Building("token")), c[0], Built(map[], Created(0)), c[1], Built(map[CLI := 0], CliRegistry.Stored(0, 0)));
    ThenTwo(s, [] + a + b + c, Built(map[CLI := 0], CliRegistry.Stored(0, 0)), d[0], Registered(false, None, map[0 := Finished()]), d[1], Ends(false, Found(0)));
    ThenTwo(s, [] + a + b + c + d, Ends(false, Found(0)), f[0], Ends(false, CliRegistry.Checked(0)), f[1], Ends(true, Marked(0)));
    RunExtends(s, [] + a + b + c + d + f, EndRemove(1));
  }

  /** A reachable state in which the children of a service fail to stop: afterwards the
      service is unregistered, nobody holds the lock, and its lease still works. */
  lemma LeaseIsOrphaned()
    ensures Reachable(Removed1()) && CanEnd(Removed1(), EndChildren(1, false))
    ensures var r' := Step(Removed1(), EndChildren(1, false));
            r'.services == map[] && r'.lock.None? && Orphaned(r', "token") && Works(r'.gateway, "token", CLI)
  {
    BareIsInitial();
    ReachesRemoval();
    FailedTerminateOrphansLease(Removed1(), 1);
  }

  // ----------------------------------------------------- registered across a restart

  /** The gateway after its server has failed; the registration waits with generation 1. */
  function Failed1(): Gateway.State {
    GatewayRuns.Running1().(life := Gateway.Life(Gateway.Failed, 1, None, Some(0)), servers := map[0 := Gateway.Exited],
                            tasks := map[1 := Gateway.Registering(CLI, CLI, 1)])
  }

  /** Starting again, at some stage. */
  function Restarting(stage: Gateway.OpStage, registering: bool): Gateway.State {
    var op := Gateway.Operating(Gateway.Starts, stage);
    Gateway.State(Gateway.Life(Gateway.Starting, 1, None, None), map[0 := Gateway.Exited], Some(5),
                  if registering then map[] else map["token" := Gateway.Client(CLI, CLI, 1, None)],
                  map[], map[], {}, map[],
                  if registering then map[1 := Gateway.Registering(CLI, CLI, 1), 5 := op] else map[5 := op],
                  if registering then map[] else map["token" := 1])
  }

  function Bound2(): Gateway.State {
    Restarting(Gateway.Commit(1, 9090), false).(servers := map[0 := Gateway.Exited, 1 := Gateway.Serving(false)])
  }

  function Running2(): Gateway.State {
    Bound2().(life := Gateway.Life(Gateway.Running, 2, Some(9090), Some(1)), operation := None, tasks := map[])
  }

  /** The `set` of task 0, beside this gateway. */
  function Beside(g: Gateway.State, stage: SetStage, ledger: Ledger): State {
    Bare().(lock := Some(0), tasks := map[0 := Setting(CLI, stage)], gateway := g, ledger := ledger)
  }

  const CLEARED := Ledger(1, map[])
  const LEASED := Ledger(1, map["token" := 1])

  lemma OtherStep(g: Gateway.State, e: Gateway.Event, stage: SetStage, ledger: Ledger)
    requires Gateway.OperationEvent(e)
    ensures Step(Beside(g, stage, ledger), Other(e)) ==
              Beside(Gateway.Step(g, e), stage, if ClearsTable(g, e) then ledger.(clears := ledger.clears + 1) else ledger)
  {
  }

  lemma ServerFails()
    ensures var broken := GatewayRuns.Running1().(servers := map[0 := Gateway.Reporting], tasks := map[1 := Gateway.Registering(CLI, CLI, 1)]);
            && Gateway.Step(GatewayRuns.Running1().(tasks := map[1 := Gateway.Registering(CLI, CLI, 1)]), Gateway.ServerBreaks(0)) == broken
            && Gateway.Step(broken, Gateway.ServerReports(0)) == Failed1()
  {
  }

  lemma RestartEnters()
    ensures Gateway.Step(Failed1(), Gateway.StartEnter(5)) == Restarting(Gateway.Cancel(Some(0)), true)
    ensures Gateway.Step(Restarting(Gateway.Cancel(Some(0)), true), Gateway.Advance(5)) == Restarting(Gateway.Join(Some(0)), true)
  {
  }

  lemma RestartClears()
    ensures Gateway.Step(Restarting(Gateway.Join(Some(0)), true), Gateway.Advance(5)) == Restarting(Gateway.ClearClients, true)
    ensures Gateway.Step(Restarting(Gateway.ClearClients, true), Gateway.Advance(5)) == Restarting(Gateway.ClearSessions, true)
  {
  }

  lemma RestartDrains()
    ensures Gateway.Step(Restarting(Gateway.ClearSessions, false), Gateway.Advance(5)) == Restarting(Gateway.Drain, false)
    ensures Gateway.Step(Restarting(Gateway.Drain, false), Gateway.Advance(5)) == Restarting(Gateway.Bind, false)
  {
    assert Gateway.TrackedCalls(map[]) == {};
  }

  lemma RestartCommits()
    ensures Gateway.Step(Restarting(Gateway.Bind, false), Gateway.BindOk(5, 1, 9090)) == Bound2()
    ensures Gateway.Step(Bound2(), Gateway.Advance(5)) == Running2()
  {
  }

  lemma LateInsert()
    ensures Step(Beside(Restarting(Gateway.ClearSessions, true), Reading(1), CLEARED), SetInsert(0, "token")) ==
              Beside(Restarting(Gateway.ClearSessions, false), Leased("token"), LEASED)
  {
    LateInsertInGateway();
  }

  lemma LateInsertInGateway()
    ensures var g := Restarting(Gateway.ClearSessions, true);
            && Gateway.CanHappen(g, Gateway.RegisterInsert(1, "token"))
            && Gateway.Step(g, Gateway.RegisterInsert(1, "token")) == Restarting(Gateway.ClearSessions, false)
  {
    assert Gateway.LeasesOf(map[], CLI, CLI) == {};
    assert Restarting(Gateway.ClearSessions, true).tasks - {1} == Restarting(Gateway.ClearSessions, false).tasks;
  }

  /** The registration has read its generation, and the server fails. */
  function Failing(): seq<Event> {
    [] + [SetEnter(0, CLI), SetRead(0, 1)] + [Other(Gateway.ServerBreaks(0)), Other(Gateway.ServerReports(0))]
  }

  /** Up to the clearing of the table. */
  function Clearing(): seq<Event> {
    Failing() + [Other(Gateway.StartEnter(5)), Other(Gateway.Advance(5))] + [Other(Gateway.Advance(5)), Other(Gateway.Advance(5))]
  }

  lemma RunsToFailure()
    ensures RunFrom(Bare(), Failing()) == Beside(Failed1(), Reading(1), Ledger(0, map[]))
  {
    var a := [SetEnter(0, CLI), SetRead(0, 1)];
    SetAsks();
    ThenTwo(Bare(), [], Bare(), a[0], Step(Bare(), a[0]), a[1], Asking());
    ServerFails();
    TwoOthers([] + a, Asking().gateway, Gateway.ServerBreaks(0), Gateway.ServerReports(0), Ledger(0, map[]));
  }

  lemma RunsToClearing()
    ensures RunFrom(Bare(), Clearing()) == Beside(Restarting(Gateway.ClearSessions, true), Reading(1), CLEARED)
  {
    RunsToFailure();
    RestartEnters();
    TwoOthers(Failing(), Failed1(), Gateway.StartEnter(5), Gateway.Advance(5), Ledger(0, map[]));
    RestartClears();
    TwoOthers(Failing() + [Other(Gateway.StartEnter(5)), Other(Gateway.Advance(5))], Restarting(Gateway.Join(Some(0)), true),
              Gateway.Advance(5), Gateway.Advance(5), Ledger(0, map[]));
  }

  function Overtaken(): seq<Event> { Clearing() + [SetInsert(0, "token")] }

  lemma RunsToInsert()
    ensures RunFrom(Bare(), Overtaken()) == Beside(Restarting(Gateway.ClearSessions, false), Leased("token"), LEASED)
  {
    RunsToClearing();
    LateInsert();
    RunExtends(Bare(), Clearing(), SetInsert(0, "token"));
  }

  /** Two steps of a start beside a waiting `set`; only the second may clear the table. */
  lemma TwoOthers(es: seq<Event>, g: Gateway.State, a: Gateway.Event, b: Gateway.Event, ledger: Ledger)
    requires RunFrom(Bare(), es) == Beside(g, Reading(1), ledger)
    requires Gateway.OperationEvent(a) && Gateway.OperationEvent(b) && !ClearsTable(g, a)
    ensures RunFrom(Bare(), es + [Other(a), Other(b)]) ==
              Beside(Gateway.Step(Gateway.Step(g, a), b), Reading(1),
                     if ClearsTable(Gateway.Step(g, a), b) then ledger.(clears := ledger.clears + 1) else ledger)
  {
    var s0, s1 := Beside(g, Reading(1), ledger), Beside(Gateway.Step(g, a), Reading(1), ledger);
    OtherStep(g, a, Reading(1), ledger);
    OtherStep(Gateway.Step(g, a), b, Reading(1), ledger);
    ThenTwo(Bare(), es, s0, Other(a), s1, Other(b), Step(s1, Other(b)));
  }

  function Ready2(): State {
    State(map[CLI := 0], map[0 := Service(CLI, "token", false)], 1, None, map[0 := Finished()], Running2(), LEASED)
  }

  function Making2(services: map<CliId, Gen>, stage: SetStage): State {
    Beside(Running2(), stage, LEASED).(services := services, objects := map[0 := Service(CLI, "token", false)], nextGen := 1)
  }

  lemma SetFinishes()
    ensures Step(Beside(Running2(), Leased("token"), LEASED), SetEndpoint(0)) == Beside(Running2(), Building("token"), LEASED)
    ensures Step(Beside(Running2(), Building("token"), LEASED), SetCreate(0)) == Making2(map[], Created(0))
  {
  }

  lemma SetStores2()
    ensures Step(Making2(map[], Created(0)), SetStore(0)) == Making2(map[CLI := 0], CliRegistry.Stored(0, 0))
    ensures Step(Making2(map[CLI := 0], CliRegistry.Stored(0, 0)), SetConclude(0)) == Ready2()
  {
  }

  /** The start goes on to its commit, and the `set` to its end. */
  function AcrossRestart(): seq<Event> {
    Overtaken() + [Other(Gateway.Advance(5)), Other(Gateway.Advance(5))] + [Other(Gateway.BindOk(5, 1, 9090)), Other(Gateway.Advance(5))]
    + [SetEndpoint(0), SetCreate(0)] + [SetStore(0), SetConclude(0)]
  }

  lemma RunsAcross()
    ensures RunFrom(Bare(), AcrossRestart()) == Ready2()
  {
    var s := Bare();
    var a, b := [Other(Gateway.Advance(5)), Other(Gateway.Advance(5))], [Other(Gateway.BindOk(5, 1, 9090)), Other(Gateway.Advance(5))];
    var c, d := [SetEndpoint(0), SetCreate(0)], [SetStore(0), SetConclude(0)];
    RunsToInsert();
    RestartDrains();
    RestartCommits();
    OtherStep(Restarting(Gateway.ClearSessions, false), Gateway.Advance(5), Leased("token"), LEASED);
    OtherStep(Restarting(Gateway.Drain, false), Gateway.Advance(5), Leased("token"), LEASED);
    OtherStep(Restarting(Gateway.Bind, false), Gateway.BindOk(5, 1, 9090), Leased("token"), LEASED);
    OtherStep(Bound2(), Gateway.Advance(5), Leased("token"), LEASED);
    SetFinishes();
    SetStores2();
    ThenTwo(s, Overtaken(), Beside(Restarting(Gateway.ClearSessions, false), Leased("token"), LEASED), a[0],
            Beside(Restarting(Gateway.Drain, false), Leased("token"), LEASED), a[1], Beside(Restarting(Gateway.Bind, false), Leased("token"), LEASED));
    ThenTwo(s, Overtaken() + a, Beside(Restarting(Gateway.Bind, false), Leased("token"), LEASED), b[0],
            Beside(Bound2(), Leased("token"), LEASED), b[1], Beside(Running2(), Leased("token"), LEASED));
    ThenTwo(s, Overtaken() + a + b, Beside(Running2(), Leased("token"), LEASED), c[0],
            Beside(Running2(), Building("token"), LEASED), c[1], Making2(map[], Created(0)));
    ThenTwo(s, Overtaken() + a + b + c, Making2(map[], Created(0)), d[0],
            Making2(map[CLI := 0], CliRegistry.Stored(0, 0)), d[1], Ready2());
  }

  /** Registered and ready, its lease in the table and the gateway running, but no request
      with that lease passes. */
  lemma RegisteredLeaseIsStale()
    ensures var r := Ready2();
            && Reachable(r) && r.lock.None? && CLI in r.services && Made(r, r.services[CLI], CLI, false)
            && r.gateway.life.phase.Running? && Holds(r.gateway, "token", CLI) && !Works(r.gateway, "token", CLI)
  {
    BareIsInitial();
    RunsAcross();
  }

  /** Nor will one ever. */
  lemma StaleForEver(later: seq<Gateway.Event>, t: Gateway.TaskId)
    requires Passes(Gateway.RunFrom(Ready2().gateway, later), t)
    ensures Gateway.RunFrom(Ready2().gateway, later).tasks[t].token != "token"
  {
    RegisteredLeaseIsStale();
    ReachableOk(Ready2());
    StaleTokenNeverPasses(Ready2().gateway, later, "token", t);
  }
}
