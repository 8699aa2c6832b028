/** Runs in which a call outlives its lease: one registers it too late to be cancelled, in
    the other a second call with the same id has taken its entry. */
module GatewayRuns {
  import opened Wrappers
  import opened RpcIds
  import opened Gateway
  import opened GatewayCalls

  lemma RunExtends(s: State, es: seq<Event>, e: Event)
    ensures RunFrom(s, es + [e]) == Step(RunFrom(s, es), e)
  {
    assert (es + [e])[..|es + [e]| - 1] == es;
  }

  /** Two steps with known results, after a run with a known result. */
  lemma ThenTwo(es: seq<Event>, s0: State, a: Event, s1: State, b: Event, s2: State)
    requires Run(es) == s0 && Step(s0, a) == s1 && Step(s1, b) == s2
    ensures Run(es + [a, b]) == s2
  {
    RunExtends(INIT, es, a);
    RunExtends(INIT, es + [a], b);
    assert es + [a] + [b] == es + [a, b];
  }

  // -------------------------------------------------------------- the gateway starts

  function Started(): seq<Event> {
    [] + [StartEnter(0), Advance(0)] + [Advance(0), Advance(0)] + [Advance(0), Advance(0)] + [BindOk(0, 0, 8080), Advance(0)]
  }

  function Running1(): State {
    State(Life(Running, 1, Some(8080), Some(0)), map[0 := Serving(false)], None, map[], map[], map[], {}, map[], map[], map[])
  }

  function Starting1(stage: OpStage): State {
    State(Life(Starting, 0, None, None), map[], Some(0), map[], map[], map[], {}, map[], map[0 := Operating(Starts, stage)], map[])
  }

  /** One section of the start, up to its waiting for a listener. */
  lemma StartAdvances(stage: OpStage)
    requires stage == Cancel(None) || stage == Join(None) || stage == ClearClients || stage == ClearSessions || stage == Drain
    ensures Step(Starting1(stage), Advance(0)) == Starting1(NextStage(Starting1(stage), Starts, stage).value)
  {
    assert TrackedCalls(map[]) == {};
  }

  lemma StartEnters()
    ensures Step(INIT, StartEnter(0)) == Starting1(Cancel(None))
  {
  }

  function Bound1(): State {
    Starting1(Bind).(servers := map[0 := Serving(false)], tasks := map[0 := Operating(Starts, Commit(0, 8080))])
  }

  lemma StartCommits1()
    ensures Step(Starting1(Bind), BindOk(0, 0, 8080)) == Bound1() && Step(Bound1(), Advance(0)) == Running1()
  {
  }

  lemma StartClears()
    ensures Run([] + [StartEnter(0), Advance(0)] + [Advance(0), Advance(0)]) == Starting1(ClearSessions)
  {
    StartEnters();
    StartAdvances(Cancel(None));
    StartAdvances(Join(None));
    StartAdvances(ClearClients);
    var a := [StartEnter(0), Advance(0)];
    ThenTwo([], INIT, StartEnter(0), Starting1(Cancel(None)), Advance(0), Starting1(Join(None)));
    ThenTwo([] + a, Starting1(Join(None)), Advance(0), Starting1(ClearClients), Advance(0), Starting1(ClearSessions));
  }

  lemma StartsUp()
    ensures Run(Started()) == Running1()
  {
    StartClears();
    StartAdvances(ClearSessions);
    StartAdvances(Drain);
    StartCommits1();
    var a, b := [StartEnter(0), Advance(0)], [Advance(0), Advance(0)];
    ThenTwo([] + a + b, Starting1(ClearSessions), Advance(0), Starting1(Drain), Advance(0), Starting1(Bind));
    ThenTwo([] + a + b + b, Starting1(Bind), BindOk(0, 0, 8080), Bound1(), Advance(0), Running1());
  }

  // ------------------------------------------------------------- the lease and the call

  const ID := Number(1)
  const CONTEXT := Context("thread", "turn")
  const LEASE := Client("codex", "one", 1, Some(CONTEXT))

  /** One lease with a context, and one request that has passed the checks with it. */
  function Checked(): seq<Event> {
    Started() + [RegisterRead(1, "codex", "one"), RegisterInsert(1, "token")]
    + [SetContext("token", Some(CONTEXT)), Resolve(2, "token")] + [Check(2)]
  }

  function Checked1(): State {
    Running1().(clients := map["token" := LEASE], issued := map["token" := 1], tasks := map[2 := Ready("token", LEASE)])
  }

  /** The lease without its context yet, and the requests on the way to the checks. */
  function Leased1(client: Client, tasks: map<TaskId, Task>): State {
    Running1().(clients := map["token" := client], issued := map["token" := 1], tasks := tasks)
  }

  const BARE := Client("codex", "one", 1, None)

  lemma LeaseIsTaken()
    ensures var reading := Running1().(tasks := map[1 := Registering("codex", "one", 1)]);
            && Step(Running1(), RegisterRead(1, "codex", "one")) == reading
            && Step(reading, RegisterInsert(1, "token")) == Leased1(BARE, map[])
  {
    assert LeasesOf(map[], "codex", "one") == {};
  }

  lemma RequestIsChecked()
    ensures Step(Leased1(BARE, map[]), SetContext("token", Some(CONTEXT))) == Leased1(LEASE, map[])
    ensures Step(Leased1(LEASE, map[]), Resolve(2, "token")) == Leased1(LEASE, map[2 := Resolved("token", LEASE)])
    ensures Step(Leased1(LEASE, map[2 := Resolved("token", LEASE)]), Check(2)) == Checked1()
  {
  }

  lemma ChecksRequest()
    ensures Run(Checked()) == Checked1()
  {
    var a, b := [RegisterRead(1, "codex", "one"), RegisterInsert(1, "token")], [SetContext("token", Some(CONTEXT)), Resolve(2, "token")];
    var reading := Running1().(tasks := map[1 := Registering("codex", "one", 1)]);
    StartsUp();
    LeaseIsTaken();
    RequestIsChecked();
    ThenTwo(Started(), Running1(), a[0], reading, a[1], Leased1(BARE, map[]));
    ThenTwo(Started() + a, Leased1(BARE, map[]), b[0], Leased1(LEASE, map[]), b[1], Leased1(LEASE, map[2 := Resolved("token", LEASE)]));
    RunExtends(INIT, Started() + a + b, Check(2));
  }

  /** The lease is revoked, to the last section; then the request registers its call. */
  function Late(): seq<Event> {
    Checked() + [RevokeRemove(3, "token"), PurgeSessions(3)] + [PurgeCalls(3), BeginCall(2, ID, 7)]
  }

  /** The lease is gone; these tasks are left. */
  function Revoked1(tasks: map<TaskId, Task>): State {
    Running1().(issued := map["token" := 1], tasks := tasks)
  }

  function Purging1(task: Task): State { Revoked1(map[2 := Ready("token", LEASE), 3 := task]) }

  function Late1(): State {
    Running1().(issued := map["token" := 1], active := map[ActiveCallKey("token", ID) := ("token", 7)], calls := map[7 := Call("token", ID)])
  }

  lemma LeaseIsRemoved()
    ensures Step(Checked1(), RevokeRemove(3, "token")) == Purging1(PurgingSessions({"token"}))
  {
  }

  lemma SessionsAreDropped()
    ensures Step(Purging1(PurgingSessions({"token"})), PurgeSessions(3)) == Purging1(PurgingCalls({"token"}))
  {
  }

  lemma NothingIsCancelled()
    ensures Step(Purging1(PurgingCalls({"token"})), PurgeCalls(3)) == Revoked1(map[2 := Ready("token", LEASE)])
  {
    assert CallsOf(map[], {"token"}) == {};
  }

  lemma CallComesLate()
    ensures Step(Revoked1(map[2 := Ready("token", LEASE)]), BeginCall(2, ID, 7)) == Late1()
  {
  }

  /** The call ends up running, tracked and not cancelled, without a lease, and nothing is
      on its way to cancel it. */
  lemma LateCallRunsWithoutLease()
    ensures var s := Run(Late());
            && Settled(s) && 7 in s.calls && 7 !in s.cancelled && Tracked(s, 7)
            && s.calls[7].token == "token" && "token" !in s.clients && !CallsLive(s)
  {
    var a, b := [RevokeRemove(3, "token"), PurgeSessions(3)], [PurgeCalls(3), BeginCall(2, ID, 7)];
    ChecksRequest();
    LeaseIsRemoved();
    SessionsAreDropped();
    NothingIsCancelled();
    CallComesLate();
    ThenTwo(Checked(), Checked1(), a[0], Purging1(PurgingSessions({"token"})), a[1], Purging1(PurgingCalls({"token"})));
    ThenTwo(Checked() + a, Purging1(PurgingCalls({"token"})), b[0], Revoked1(map[2 := Ready("token", LEASE)]), b[1], Late1());
    assert !EntryLive(Late1(), ActiveCallKey("token", ID));
  }

  // ------------------------------------------------------------- two calls with one id

  /** The first request's call, then another request of the same lease on its way to its own. */
  function Doubling(): seq<Event> {
    Checked() + [BeginCall(2, ID, 7), Resolve(4, "token")] + [Check(4), BeginCall(4, ID, 8)]
  }

  function Calling1(tasks: map<TaskId, Task>): State {
    Leased1(LEASE, tasks).(active := map[ActiveCallKey("token", ID) := ("token", 7)], calls := map[7 := Call("token", ID)])
  }

  /** Both calls run; the table knows the second only. */
  function Doubled1(clients: map<Token, Client>, cancelled: set<CallId>, tasks: map<TaskId, Task>): State {
    Running1().(clients := clients, issued := map["token" := 1], active := map[ActiveCallKey("token", ID) := ("token", 8)],
                calls := map[7 := Call("token", ID), 8 := Call("token", ID)], cancelled := cancelled, tasks := tasks)
  }

  lemma FirstCallBegins()
    ensures Step(Checked1(), BeginCall(2, ID, 7)) == Calling1(map[])
  {
  }

  lemma SecondIsChecked()
    ensures Step(Calling1(map[]), Resolve(4, "token")) == Calling1(map[4 := Resolved("token", LEASE)])
    ensures Step(Calling1(map[4 := Resolved("token", LEASE)]), Check(4)) == Calling1(map[4 := Ready("token", LEASE)])
  {
  }

  lemma SecondCallBegins()
    ensures Step(Calling1(map[4 := Ready("token", LEASE)]), BeginCall(4, ID, 8)) == Doubled1(map["token" := LEASE], {}, map[])
  {
  }

  lemma LeaseGoes()
    ensures Step(Doubled1(map["token" := LEASE], {}, map[]), RevokeRemove(3, "token")) == Doubled1(map[], {}, map[3 := PurgingSessions({"token"})])
    ensures Step(Doubled1(map[], {}, map[3 := PurgingSessions({"token"})]), PurgeSessions(3)) == Doubled1(map[], {}, map[3 := PurgingCalls({"token"})])
  {
  }

  lemma OnlySecondIsCancelled()
    ensures Step(Doubled1(map[], {}, map[3 := PurgingCalls({"token"})]), PurgeCalls(3)) == Doubled1(map[], {8}, map[])
  {
    var active := Doubled1(map[], {}, map[]).active;
    assert CallsOf(active, {"token"}) == {8} by { assert active[ActiveCallKey("token", ID)] == ("token", 8); }
  }

  lemma CallsAreDoubled()
    ensures Run(Doubling()) == Doubled1(map["token" := LEASE], {}, map[])
  {
    var a, b := [BeginCall(2, ID, 7), Resolve(4, "token")], [Check(4), BeginCall(4, ID, 8)];
    ChecksRequest();
    FirstCallBegins();
    SecondIsChecked();
    SecondCallBegins();
    ThenTwo(Checked(), Checked1(), a[0], Calling1(map[]), a[1], Calling1(map[4 := Resolved("token", LEASE)]));
    ThenTwo(Checked() + a, Calling1(map[4 := Resolved("token", LEASE)]), b[0], Calling1(map[4 := Ready("token", LEASE)]), b[1],
            Doubled1(map["token" := LEASE], {}, map[]));
  }

  /** After the revocation the first call still runs, lost, uncancelled and without a lease. */
  lemma LostCallOutlivesLease()
    ensures var es := Doubling() + [RevokeRemove(3, "token"), PurgeSessions(3)] + [PurgeCalls(3)];
            var s := Run(es);
            Settled(s) && 7 in s.calls && 7 !in s.cancelled && s.calls[7].token !in s.clients && 7 in Lost(es)
  {
    var a := [RevokeRemove(3, "token"), PurgeSessions(3)];
    CallsAreDoubled();
    LeaseGoes();
    OnlySecondIsCancelled();
    ThenTwo(Doubling(), Doubled1(map["token" := LEASE], {}, map[]), a[0], Doubled1(map[], {}, map[3 := PurgingSessions({"token"})]),
            a[1], Doubled1(map[], {}, map[3 := PurgingCalls({"token"})]));
    RunExtends(INIT, Doubling() + a, PurgeCalls(3));
    RunningCallTrackedIff(Doubling() + a + [PurgeCalls(3)], 7);
    assert !Tracked(Doubled1(map[], {8}, map[]), 7);
  }
}
