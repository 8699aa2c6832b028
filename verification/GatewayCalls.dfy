/** Tracking and cancellation of tool calls, over every interleaving of the gateway. */
module GatewayCalls {
  import opened Wrappers
  import opened RpcIds
  import opened Gateway
  import opened GatewayLeases

  function KeyOf(call: Call): string { ActiveCallKey(call.token, call.id) }

  predicate Tracked(s: State, c: CallId)
    requires c in s.calls
  {
    KeyOf(s.calls[c]) in s.active && s.active[KeyOf(s.calls[c])] == (s.calls[c].token, c)
  }

  ghost predicate EntryOk(s: State, key: string)
    requires key in s.active
  {
    var (token, c) := s.active[key];
    c in s.calls && s.calls[c].token == token && key == KeyOf(s.calls[c])
  }

  /** Table entries speak of running calls. */
  ghost predicate EntriesOk(s: State) {
    && (forall key <- s.active :: EntryOk(s, key))
    && (forall c <- s.calls :: TokenText(s.calls[c].token))
  }

  /** This step takes the entry of the running call `c` away: another call of the same lease
      and id is registered over it, or returns and removes it. */
  predicate Displaces(s: State, e: Event, c: CallId) {
    c in s.calls && CanHappen(s, e) &&
    if e.BeginCall? then s.tasks[e.task].client.context.Some? && s.calls[c] == Call(s.tasks[e.task].token, e.id)
    else e.EndCall? && c != e.call && s.calls[c] == s.calls[e.call]
  }

  /** Of the calls still running after this step, those lost before or in it. */
  function NextLost(s: State, e: Event, lost: set<CallId>): set<CallId> {
    set c | c in Step(s, e).calls && (c in lost || Displaces(s, e, c))
  }

  /** The running calls whose entry another call of the same lease and id has taken away. */
  function Lost(es: seq<Event>): set<CallId> {
    if es == [] then {} else NextLost(Run(es[..|es| - 1]), es[|es| - 1], Lost(es[..|es| - 1]))
  }

  /** Every running call is tracked, cancelled or lost, and the lost ones are not tracked. */
  ghost predicate CallsOk(s: State, lost: set<CallId>) {
    && EntriesOk(s)
    && (forall c <- s.calls :: c in s.cancelled || c in lost || Tracked(s, c))
    && (forall c <- lost :: c in s.calls && !Tracked(s, c))
  }

  lemma TrackKeepsEntries(s: State, token: Token, id: RpcId, call: CallId)
    requires EntriesOk(s) && TokenText(token) && FreshCall(s, call)
    ensures EntriesOk(Track(s, token, id, call))
  {
    var s' := Track(s, token, id, call);
    forall key | key in s'.active ensures EntryOk(s', key) {
      if key != ActiveCallKey(token, id) { assert EntryOk(s, key); }
    }
  }

  lemma TrackKeepsCalls(s: State, token: Token, id: RpcId, call: CallId, lost: set<CallId>)
    requires CallsOk(s, lost) && TokenText(token) && FreshCall(s, call)
    ensures CallsOk(Track(s, token, id, call), lost + set c | c in s.calls && s.calls[c] == Call(token, id))
  {
    var s' := Track(s, token, id, call);
    TrackKeepsEntries(s, token, id, call);
    forall c | c in s.calls ensures Tracked(s', c) <==> Tracked(s, c) && s.calls[c] != Call(token, id) {
      TrackTakesOver(s, token, id, call, c);
    }
    assert Tracked(s', call);
    assert forall c <- s'.calls :: c == call || (c in s.calls && s'.calls[c] == s.calls[c]);
  }

  /** Registering takes the entry of an equal call, and no other. */
  lemma TrackTakesOver(s: State, token: Token, id: RpcId, call: CallId, c: CallId)
    requires EntriesOk(s) && TokenText(token) && FreshCall(s, call) && c in s.calls
    ensures var s' := Track(s, token, id, call); Tracked(s', c) <==> Tracked(s, c) && s.calls[c] != Call(token, id)
  {
    ActiveCallKeyInjective(s.calls[c].token, s.calls[c].id, token, id);
  }

  lemma EndKeepsEntries(s: State, call: CallId)
    requires EntriesOk(s) && call in s.calls
    ensures EntriesOk(OnEndCall(s, call))
  {
    var s' := OnEndCall(s, call);
    forall key | key in s'.active ensures EntryOk(s', key) { assert EntryOk(s, key); }
  }

  lemma EndKeepsCalls(s: State, call: CallId, lost: set<CallId>)
    requires CallsOk(s, lost) && call in s.calls
    ensures CallsOk(OnEndCall(s, call), set c | c in s.calls && c != call && (c in lost || s.calls[c] == s.calls[call]))
  {
    var s' := OnEndCall(s, call);
    EndKeepsEntries(s, call);
    forall c | c in s'.calls ensures Tracked(s', c) <==> Tracked(s, c) && s.calls[c] != s.calls[call] {
      ActiveCallKeyInjective(s.calls[c].token, s.calls[c].id, s.calls[call].token, s.calls[call].id);
    }
  }

  /** More cancellations, or an empty table with everything in it cancelled. */
  lemma CancelKeepsCalls(s: State, s': State, lost: set<CallId>)
    requires CallsOk(s, lost) && s'.calls == s.calls && s.cancelled <= s'.cancelled
    requires s'.active == s.active || (s'.active == map[] && TrackedCalls(s.active) <= s'.cancelled)
    ensures CallsOk(s', lost)
  {
    forall key | key in s'.active ensures EntryOk(s', key) { assert EntryOk(s, key); }
    forall c | c in s'.calls ensures c in s'.cancelled || c in lost || Tracked(s', c) {
      assert c in s.cancelled || c in lost || Tracked(s, c);
      if Tracked(s, c) { assert s.active[KeyOf(s.calls[c])].1 in TrackedCalls(s.active); }
    }
  }

  lemma BeginKeepsCalls(s: State, e: Event, lost: set<CallId>)
    requires LeasesOk(s) && CallsOk(s, lost) && e.BeginCall? && CanRequest(s, e)
    ensures CallsOk(RequestStep(s, e), NextLost(s, e, lost))
  {
    var s0 := EndTask(s, e.task);
    assert TaskLeaseOk(s, s.tasks[e.task]);
    CancelKeepsCalls(s, s0, lost);
    BeginLoses(s, e, lost);
    if s.tasks[e.task].client.context.Some? { TrackKeepsCalls(s0, s.tasks[e.task].token, e.id, e.call, lost); }
  }

  lemma BeginLoses(s: State, e: Event, lost: set<CallId>)
    requires CallsOk(s, lost) && e.BeginCall? && CanRequest(s, e)
    ensures NextLost(s, e, lost) ==
              if s.tasks[e.task].client.context.Some? then lost + set c | c in s.calls && s.calls[c] == Call(s.tasks[e.task].token, e.id)
              else lost
  {
  }

  lemma FinishKeepsCalls(s: State, e: Event, lost: set<CallId>)
    requires CallsOk(s, lost) && e.EndCall? && CanRequest(s, e)
    ensures CallsOk(RequestStep(s, e), NextLost(s, e, lost))
  {
    EndKeepsCalls(s, e.call, lost);
    assert NextLost(s, e, lost) == set c | c in s.calls && c != e.call && (c in lost || s.calls[c] == s.calls[e.call]);
  }

  lemma QuietKeepsLost(s: State, e: Event, lost: set<CallId>)
    requires CallsOk(s, lost) && !e.BeginCall? && !e.EndCall? && Step(s, e).calls == s.calls
    ensures NextLost(s, e, lost) == lost
  {
  }

  lemma RequestKeepsCalls(s: State, e: Event, lost: set<CallId>)
    requires LeasesOk(s) && CallsOk(s, lost) && RequestEvent(e) && CanRequest(s, e)
    ensures CallsOk(RequestStep(s, e), NextLost(s, e, lost))
  {
    if e.BeginCall? {
      BeginKeepsCalls(s, e, lost);
    } else if e.EndCall? {
      FinishKeepsCalls(s, e, lost);
    } else {
      CancelKeepsCalls(s, RequestStep(s, e), lost);
      QuietKeepsLost(s, e, lost);
    }
  }

  lemma StepKeepsCalls(s: State, e: Event, lost: set<CallId>)
    requires LeasesOk(s) && CallsOk(s, lost)
    ensures CallsOk(Step(s, e), NextLost(s, e, lost))
  {
    if !CanHappen(s, e) {
      assert NextLost(s, e, lost) == lost;
    } else if RequestEvent(e) {
      RequestKeepsCalls(s, e, lost);
    } else {
      if OperationEvent(e) { OperationFrame(s, e); } else { LeaseFrame(s, e); }
      CancelKeepsCalls(s, Step(s, e), lost);
      QuietKeepsLost(s, e, lost);
    }
  }

  /** In every reachable state each running call is tracked, cancelled or lost. */
  lemma {:induction false} EveryCallTrackedOrCancelled(es: seq<Event>)
    ensures CallsOk(Run(es), Lost(es))
  {
    if es != [] {
      EveryCallTrackedOrCancelled(es[..|es| - 1]);
      RunKeepsLeases(es[..|es| - 1]);
      StepKeepsCalls(Run(es[..|es| - 1]), es[|es| - 1], Lost(es[..|es| - 1]));
    }
  }

  /** A running call that is not cancelled is tracked exactly if no other call of the same
      lease and id has been registered over it or has returned since. */
  lemma RunningCallTrackedIff(es: seq<Event>, c: CallId)
    requires c in Run(es).calls && c !in Run(es).cancelled
    ensures Tracked(Run(es), c) <==> c !in Lost(es)
  {
    EveryCallTrackedOrCancelled(es);
  }

  /** No two running calls have the same lease and id. */
  ghost predicate Distinct(s: State) {
    forall c, d :: c in s.calls && d in s.calls && s.calls[c] == s.calls[d] ==> c == d
  }

  lemma DistinctDisplacesNothing(s: State, e: Event, c: CallId)
    requires Distinct(s) && Distinct(Step(s, e)) && c in Step(s, e).calls
    ensures !Displaces(s, e, c)
  {
    if e.BeginCall? && CanHappen(s, e) && s.tasks[e.task].client.context.Some? {
      var s' := Step(s, e);
      assert e.call in s'.calls && s'.calls[e.call] == Call(s.tasks[e.task].token, e.id);
      assert c != e.call ==> s'.calls[c] == s.calls[c];
    }
  }

  /** Clients that keep the ids of their concurrent requests apart lose no call. */
  lemma {:induction false} DistinctIdsLoseNothing(es: seq<Event>)
    requires forall k | 0 <= k <= |es| :: Distinct(Run(es[..k]))
    ensures Lost(es) == {}
  {
    if es != [] {
      var before, e := es[..|es| - 1], es[|es| - 1];
      forall k | 0 <= k <= |before| ensures Distinct(Run(before[..k])) {
        assert before[..k] == es[..k] && Distinct(Run(es[..k]));
      }
      DistinctIdsLoseNothing(before);
      assert es[..|es|] == es && Distinct(Run(es[..|es| - 1])) && Distinct(Run(es[..|es|]));
      forall c | c in Step(Run(before), e).calls ensures !Displaces(Run(before), e, c) { DistinctDisplacesNothing(Run(before), e, c); }
    }
  }

  // ------------------------------------------------------------- cancellation

  /** A cancel notification can only hit the call of its own lease with that very id. */
  lemma CancelNoteHitsOwnCall(es: seq<Event>, t: TaskId, id: RpcId, c: CallId)
    requires CanHappen(Run(es), CancelNote(t, id))
    requires c in Step(Run(es), CancelNote(t, id)).cancelled && c !in Run(es).cancelled
    ensures c in Run(es).calls && Run(es).calls[c] == Call(Run(es).tasks[t].token, id)
  {
    var s := Run(es);
    EveryCallTrackedOrCancelled(es);
    RunKeepsLeases(es);
    assert TaskLeaseOk(s, s.tasks[t]);
    var key := ActiveCallKey(s.tasks[t].token, id);
    assert EntryOk(s, key);
    ActiveCallKeyInjective(s.calls[c].token, s.calls[c].id, s.tasks[t].token, id);
  }

  /** When a revocation or replacement finishes, it has cancelled exactly those running calls
      of its leases that were not lost. */
  lemma PurgeCancelsEveryCall(es: seq<Event>, t: TaskId, c: CallId)
    requires CanHappen(Run(es), PurgeCalls(t)) && c in Run(es).calls && Run(es).calls[c].token in Run(es).tasks[t].tokens
    ensures c in Step(Run(es), PurgeCalls(t)).cancelled <==> c in Run(es).cancelled || c !in Lost(es)
  {
    var s := Run(es);
    EveryCallTrackedOrCancelled(es);
    if Tracked(s, c) { assert s.active[KeyOf(s.calls[c])].1 in CallsOf(s.active, s.tasks[t].tokens); }
    forall key | key in s.active && s.active[key].1 == c ensures Tracked(s, c) { assert EntryOk(s, key); }
  }

  /** When a start or shutdown drains the table, every running call that was not lost is
      cancelled, and no other. */
  lemma DrainCancelsEveryCall(es: seq<Event>, t: TaskId, c: CallId)
    requires CanHappen(Run(es), Advance(t)) && Run(es).tasks[t].stage.Drain? && c in Run(es).calls
    ensures c in Step(Run(es), Advance(t)).cancelled <==> c in Run(es).cancelled || c !in Lost(es)
    ensures Step(Run(es), Advance(t)).active == map[]
  {
    var s := Run(es);
    EveryCallTrackedOrCancelled(es);
    if Tracked(s, c) { assert s.active[KeyOf(s.calls[c])].1 in TrackedCalls(s.active); }
    forall key | key in s.active && s.active[key].1 == c ensures Tracked(s, c) { assert EntryOk(s, key); }
  }

  // --------------------------------------------- calls belong to live leases

  /** A pending revocation, replacement, start or shutdown will cancel this lease's calls. */
  ghost predicate Covered(s: State, token: Token) { exists t <- s.tasks :: Covers(s.tasks[t], token) }

  predicate Covers(task: Task, token: Token) {
    match task
    case PurgingSessions(tokens) => token in tokens
    case PurgingCalls(tokens) => token in tokens
    case Operating(_, stage) => stage.ClearSessions? || stage.Drain?
    case _ => false
  }

  ghost predicate EntryLive(s: State, key: string)
    requires key in s.active
  {
    s.active[key].1 !in s.cancelled ==> s.active[key].0 in s.clients || Covered(s, s.active[key].0)
  }

  /** Every tracked, uncancelled call has a live lease or a cancellation on its way. */
  ghost predicate CallsLive(s: State) { forall key <- s.active :: EntryLive(s, key) }

  /** Nothing is on its way to cancel calls. */
  ghost predicate Settled(s: State) {
    forall t <- s.tasks :: var task := s.tasks[t];
      !task.PurgingSessions? && !task.PurgingCalls? && !(task.Operating? && (task.stage.ClearSessions? || task.stage.Drain?))
  }

  /** Entries survive if their lease or their coverage does. */
  lemma LiveCarries(s: State, s': State)
    requires CallsLive(s) && s.cancelled <= s'.cancelled
    requires forall key <- s'.active :: key in s.active && s'.active[key] == s.active[key]
    requires forall key <- s'.active :: s'.active[key].1 in s'.cancelled || !(s.active[key].0 in s.clients || Covered(s, s.active[key].0))
               || s.active[key].0 in s'.clients || Covered(s', s.active[key].0)
    ensures CallsLive(s')
  {
    forall key | key in s'.active ensures EntryLive(s', key) { assert EntryLive(s, key); }
  }

  lemma CoveredCarries(s: State, s': State, t: Option<TaskId>, token: Token)
    requires Covered(s, token)
    requires forall u <- s.tasks :: t != Some(u) ==> u in s'.tasks && s'.tasks[u] == s.tasks[u]
    requires t.Some? && t.value in s.tasks && Covers(s.tasks[t.value], token) ==> t.value in s'.tasks && Covers(s'.tasks[t.value], token)
    ensures Covered(s', token)
  {
    var u :| u in s.tasks && Covers(s.tasks[u], token);
    assert u in s'.tasks && Covers(s'.tasks[u], token);
  }

  lemma InsertKeepsLive(s: State, t: TaskId, token: Token)
    requires CallsLive(s) && CanLease(s, RegisterInsert(t, token))
    ensures CallsLive(OnRegisterInsert(s, t, token))
  {
    var s' := OnRegisterInsert(s, t, token);
    var replaced := LeasesOf(s.clients, s.tasks[t].engine, s.tasks[t].instance);
    forall key | key in s.active && (s.active[key].0 in s.clients || Covered(s, s.active[key].0))
      ensures s.active[key].0 in s'.clients || Covered(s', s.active[key].0)
    {
      if Covered(s, s.active[key].0) {
        CoveredCarries(s, s', Some(t), s.active[key].0);
      } else if s.active[key].0 in replaced {
        assert Covers(s'.tasks[t], s.active[key].0);
      }
    }
    LiveCarries(s, s');
  }

  lemma RevokeKeepsLive(s: State, t: TaskId, token: Token)
    requires CallsLive(s) && CanLease(s, RevokeRemove(t, token))
    ensures CallsLive(LeaseStep(s, RevokeRemove(t, token)))
  {
    var s' := LeaseStep(s, RevokeRemove(t, token));
    assert Covers(s'.tasks[t], token) && Covered(s', token);
    forall key | key in s.active && Covered(s, s.active[key].0) ensures Covered(s', s.active[key].0) {
      CoveredCarries(s, s', Some(t), s.active[key].0);
    }
    LiveCarries(s, s');
  }

  lemma PurgeKeepsLive(s: State, e: Event)
    requires CallsLive(s) && (e.PurgeSessions? || e.PurgeCalls?) && CanLease(s, e)
    ensures CallsLive(LeaseStep(s, e))
  {
    var s' := LeaseStep(s, e);
    forall key | key in s.active && Covered(s, s.active[key].0) ensures s.active[key].1 in s'.cancelled || Covered(s', s.active[key].0) {
      if e.PurgeCalls? && s.active[key].0 in s.tasks[e.task].tokens {
        assert s.active[key].1 in CallsOf(s.active, s.tasks[e.task].tokens);
      } else {
        CoveredCarries(s, s', Some(e.task), s.active[key].0);
      }
    }
    LiveCarries(s, s');
  }

  lemma LeaseStepKeepsLive(s: State, e: Event)
    requires CallsLive(s) && LeaseEvent(e) && CanLease(s, e)
    ensures CallsLive(LeaseStep(s, e))
  {
    if e.RegisterInsert? {
      InsertKeepsLive(s, e.task, e.token);
    } else if e.RevokeRemove? {
      RevokeKeepsLive(s, e.task, e.token);
    } else if e.PurgeSessions? || e.PurgeCalls? {
      PurgeKeepsLive(s, e);
    } else {
      var s' := LeaseStep(s, e);
      forall key | key in s.active && Covered(s, s.active[key].0) ensures Covered(s', s.active[key].0) {
        CoveredCarries(s, s', None, s.active[key].0);
      }
      LiveCarries(s, s');
    }
  }

  lemma AdvanceKeepsLive(s: State, t: TaskId)
    requires CallsLive(s) && CanAdvance(s, t)
    ensures CallsLive(OnAdvance(s, t))
  {
    var s' := OnAdvance(s, t);
    forall key | key in s'.active && (s.active[key].0 in s.clients || Covered(s, s.active[key].0))
      ensures s.active[key].0 in s'.clients || Covered(s', s.active[key].0)
    {
      if s.tasks[t].stage.ClearClients? {
        assert Covers(s'.tasks[t], s.active[key].0);
      } else if Covered(s, s.active[key].0) {
        CoveredCarries(s, s', Some(t), s.active[key].0);
      }
    }
    LiveCarries(s, s');
  }

  lemma OperationKeepsLive(s: State, e: Event)
    requires CallsLive(s) && OperationEvent(e) && CanOperate(s, e)
    ensures CallsLive(OperationStep(s, e))
  {
    if e.Advance? {
      AdvanceKeepsLive(s, e.task);
    } else {
      var s' := OperationStep(s, e);
      forall key | key in s.active && Covered(s, s.active[key].0) ensures Covered(s', s.active[key].0) {
        CoveredCarries(s, s', Actor(e), s.active[key].0);
      }
      LiveCarries(s, s');
    }
  }

  lemma RequestCoverage(s: State, e: Event, token: Token)
    requires RequestEvent(e) && CanRequest(s, e) && Covered(s, token)
    ensures Covered(RequestStep(s, e), token)
  {
    CoveredCarries(s, RequestStep(s, e), Actor(e), token);
  }

  lemma TrackLiveIff(s: State, token: Token, id: RpcId, call: CallId)
    requires CallsLive(s) && FreshCall(s, call)
    ensures CallsLive(Track(s, token, id, call)) <==> token in s.clients || Covered(s, token)
  {
    var s' := Track(s, token, id, call);
    var key := ActiveCallKey(token, id);
    assert forall t: Token :: Covered(s', t) == Covered(s, t);
    assert EntryLive(s', key) <==> token in s.clients || Covered(s, token);
    forall k | k in s'.active && k != key ensures EntryLive(s', k) { assert EntryLive(s, k); }
  }

  lemma LeavingKeepsCovered(s: State, t: TaskId)
    requires t in s.tasks && s.tasks[t].Ready?
    ensures forall u: Token :: Covered(EndTask(s, t), u) == Covered(s, u)
  {
    forall u: Token ensures Covered(EndTask(s, t), u) == Covered(s, u) {
      if Covered(s, u) { CoveredCarries(s, EndTask(s, t), Some(t), u); }
    }
  }

  /** A call registered by a request that authenticated earlier is tied to a live lease, or
      to a cancellation on its way, exactly when its lease still is at that moment. */
  lemma LateCallKeepsTrackingIff(s: State, t: TaskId, id: RpcId, call: CallId)
    requires CallsLive(s)
    requires CanHappen(s, BeginCall(t, id, call)) && s.tasks[t].client.context.Some?
    ensures CallsLive(Step(s, BeginCall(t, id, call))) <==> s.tasks[t].token in s.clients || Covered(s, s.tasks[t].token)
  {
    var s0 := EndTask(s, t);
    LeavingKeepsCovered(s, t);
    LiveCarries(s, s0);
    TrackLiveIff(s0, s.tasks[t].token, id, call);
  }

  lemma RequestKeepsLive(s: State, e: Event)
    requires CallsLive(s) && RequestEvent(e) && CanRequest(s, e) && !e.BeginCall?
    ensures CallsLive(RequestStep(s, e))
  {
    var s' := RequestStep(s, e);
    RequestFrame(s, e);
    forall key | key in s.active && Covered(s, s.active[key].0) ensures Covered(s', s.active[key].0) { RequestCoverage(s, e, s.active[key].0); }
    LiveCarries(s, s');
  }

  lemma StepKeepsLive(s: State, e: Event)
    requires CallsLive(s) && !e.BeginCall?
    ensures CallsLive(Step(s, e))
  {
    if CanHappen(s, e) {
      if OperationEvent(e) {
        OperationKeepsLive(s, e);
      } else if LeaseEvent(e) {
        LeaseStepKeepsLive(s, e);
      } else {
        RequestKeepsLive(s, e);
      }
    }
  }

  // ------------------------------------------------------- calls registered late

  /** A request that authenticated earlier registers a call although its lease has gone and
      nothing is on its way any more to cancel the lease's calls. */
  ghost predicate LateBegin(s: State, e: Event) {
    && e.BeginCall? && CanHappen(s, e) && s.tasks[e.task].client.context.Some?
    && s.tasks[e.task].token !in s.clients && !Covered(s, s.tasks[e.task].token)
  }

  /** The running calls that were registered late. */
  ghost function LateCalls(es: seq<Event>): set<CallId> {
    if es == [] then {}
    else
      var before, e := es[..|es| - 1], es[|es| - 1];
      var kept := set c | c in LateCalls(before) && c in Run(es).calls;
      if LateBegin(Run(before), e) then kept + {e.call} else kept
  }

  /** The state as it would be had the calls `late` been cancelled. */
  function Pardoned(s: State, late: set<CallId>): State { s.(cancelled := s.cancelled + late) }

  /** Late calls hold dead tokens; all others are tied to a live lease or a cancellation. */
  ghost predicate LateOk(s: State, late: set<CallId>) {
    && (forall c <- late :: c in s.calls && Dead(s, s.calls[c].token))
    && CallsLive(Pardoned(s, late))
  }

  lemma PardonedCanRequest(s: State, e: Event, late: set<CallId>)
    requires late <= s.calls.Keys && RequestEvent(e)
    ensures CanRequest(Pardoned(s, late), e) <==> CanRequest(s, e)
  {
  }

  lemma PardonedNote(s: State, t: TaskId, id: RpcId, late: set<CallId>)
    requires t in s.tasks && s.tasks[t].Ready?
    ensures OnCancelNote(Pardoned(s, late), t, id) == Pardoned(OnCancelNote(s, t, id), late)
  {
    forall c: CallId ensures s.cancelled + late + {c} == s.cancelled + {c} + late {}
  }

  lemma PardonedTrack(s: State, token: Token, id: RpcId, call: CallId, late: set<CallId>)
    ensures Track(Pardoned(s, late), token, id, call) == Pardoned(Track(s, token, id, call), late)
  {
  }

  lemma PardonedBegin(s: State, t: TaskId, id: RpcId, call: CallId, late: set<CallId>)
    requires t in s.tasks && s.tasks[t].Ready?
    ensures OnBeginCall(Pardoned(s, late), t, id, call) == Pardoned(OnBeginCall(s, t, id, call), late)
  {
    var p, q := EndTask(Pardoned(s, late), t), EndTask(s, t);
    assert p == Pardoned(q, late);
    PardonedTrack(q, s.tasks[t].token, id, call, late);
  }

  /** Requests on their way to the checks, and sessions. */
  lemma PardonedQuietStep(s: State, e: Event, late: set<CallId>)
    requires RequestEvent(e) && CanRequest(s, e) && CanRequest(Pardoned(s, late), e)
    requires !e.CancelNote? && !e.BeginCall?
    ensures RequestStep(Pardoned(s, late), e) == Pardoned(RequestStep(s, e), late)
  {
  }

  lemma PardonedRequestStep(s: State, e: Event, late: set<CallId>)
    requires RequestEvent(e) && CanRequest(s, e) && CanRequest(Pardoned(s, late), e)
    ensures RequestStep(Pardoned(s, late), e) == Pardoned(RequestStep(s, e), late)
  {
    if e.CancelNote? { PardonedNote(s, e.task, e.id, late); }
    else if e.BeginCall? { PardonedBegin(s, e.task, e.id, e.call, late); }
    else { PardonedQuietStep(s, e, late); }
  }

  lemma PardonCommutes(s: State, e: Event, late: set<CallId>)
    requires late <= s.calls.Keys && RequestEvent(e)
    ensures Step(Pardoned(s, late), e) == Pardoned(Step(s, e), late)
  {
    PardonedCanRequest(s, e, late);
    if CanRequest(s, e) { PardonedRequestStep(s, e, late); }
  }

  lemma PardonedPurge(s: State, t: TaskId, late: set<CallId>)
    requires t in s.tasks && s.tasks[t].PurgingCalls?
    ensures OnPurgeCalls(Pardoned(s, late), t) == Pardoned(OnPurgeCalls(s, t), late)
  {
    var purged := CallsOf(s.active, s.tasks[t].tokens);
    assert s.cancelled + late + purged == s.cancelled + purged + late;
  }

  lemma PardonedInsert(s: State, t: TaskId, token: Token, late: set<CallId>)
    requires t in s.tasks && s.tasks[t].Registering?
    ensures OnRegisterInsert(Pardoned(s, late), t, token) == Pardoned(OnRegisterInsert(s, t, token), late)
  {
    var p, q := OnRegisterInsert(Pardoned(s, late), t, token), OnRegisterInsert(s, t, token);
    assert p.clients == q.clients && p.issued == q.issued && p.tasks == q.tasks;
  }

  lemma PardonedLeaseStep(s: State, e: Event, late: set<CallId>)
    requires LeaseEvent(e) && CanLease(s, e) && CanLease(Pardoned(s, late), e) && !e.PurgeCalls? && !e.RegisterInsert?
    ensures LeaseStep(Pardoned(s, late), e) == Pardoned(LeaseStep(s, e), late)
  {
  }

  lemma PardonCommutesInLease(s: State, e: Event, late: set<CallId>)
    requires LeaseEvent(e)
    ensures Step(Pardoned(s, late), e) == Pardoned(Step(s, e), late)
  {
    assert CanLease(Pardoned(s, late), e) <==> CanLease(s, e);
    if !CanLease(s, e) {
    } else if e.PurgeCalls? {
      PardonedPurge(s, e.task, late);
    } else if e.RegisterInsert? {
      PardonedInsert(s, e.task, e.token, late);
    } else {
      PardonedLeaseStep(s, e, late);
    }
  }

  lemma PardonCommutesInOperation(s: State, e: Event, late: set<CallId>)
    requires OperationEvent(e)
    ensures Step(Pardoned(s, late), e) == Pardoned(Step(s, e), late)
  {
    if e.Advance? && CanHappen(s, e) {
      assert s.cancelled + late + TrackedCalls(s.active) == s.cancelled + TrackedCalls(s.active) + late;
    }
  }

  /** Calls that have ended need no pardon. */
  lemma PardonOnlyRunning(s: State, late: set<CallId>, kept: set<CallId>)
    requires EntriesOk(s) && CallsLive(Pardoned(s, late)) && kept == set c | c in late && c in s.calls
    ensures CallsLive(Pardoned(s, kept))
  {
    var p, q := Pardoned(s, late), Pardoned(s, kept);
    forall t: Token ensures Covered(q, t) == Covered(p, t) {}
    forall key | key in q.active ensures EntryLive(q, key) {
      assert EntryOk(s, key) && EntryLive(p, key);
    }
  }

  lemma OrdinaryStepKeepsLate(s: State, e: Event, late: set<CallId>)
    requires LateOk(s, late) && !e.BeginCall?
    ensures CallsLive(Pardoned(Step(s, e), late))
  {
    StepKeepsLive(Pardoned(s, late), e);
    if OperationEvent(e) { PardonCommutesInOperation(s, e, late); }
    else if LeaseEvent(e) { PardonCommutesInLease(s, e, late); }
    else { PardonCommutes(s, e, late); }
  }

  /** Without a context in its hands a request registers nothing. */
  lemma IdleBeginKeepsLive(s: State, e: Event)
    requires CallsLive(s) && e.BeginCall? && CanHappen(s, e) && s.tasks[e.task].client.context.None?
    ensures CallsLive(Step(s, e))
  {
    LeavingKeepsCovered(s, e.task);
    LiveCarries(s, Step(s, e));
  }

  /** A call registered without a context, in time or late: pardoned if late, all is well. */
  lemma BeginKeepsLate(s: State, e: Event, late: set<CallId>)
    requires LateOk(s, late) && e.BeginCall? && CanHappen(s, e)
    ensures CallsLive(Pardoned(Step(s, e), if LateBegin(s, e) then late + {e.call} else late))
  {
    var p := Pardoned(s, late);
    PardonCommutes(s, e, late);
    if s.tasks[e.task].client.context.None? {
      IdleBeginKeepsLive(p, e);
    } else if !LateBegin(s, e) {
      assert Covered(p, s.tasks[e.task].token) == Covered(s, s.tasks[e.task].token);
      LateCallKeepsTrackingIff(p, e.task, e.id, e.call);
    } else {
      LateBeginKeepsLate(s, e, late);
    }
  }

  lemma LateBeginKeepsLate(s: State, e: Event, late: set<CallId>)
    requires LateOk(s, late) && LateBegin(s, e)
    ensures CallsLive(Pardoned(Step(s, e), late + {e.call}))
  {
    var p, q := Pardoned(s, late), Pardoned(Step(s, e), late + {e.call});
    LeavingKeepsCovered(s, e.task);
    assert forall u: Token :: Covered(q, u) == Covered(EndTask(s, e.task), u);
    assert forall u: Token :: Covered(p, u) == Covered(s, u);
    forall key | key in q.active ensures EntryLive(q, key) {
      if q.active[key].1 != e.call { assert EntryLive(p, key); }
    }
  }

  lemma StepKeepsLate(es: seq<Event>, e: Event)
    requires LateOk(Run(es), LateCalls(es))
    ensures LateOk(Run(es + [e]), LateCalls(es + [e]))
  {
    var s, late := Run(es), LateCalls(es);
    assert (es + [e])[..|es + [e]| - 1] == es;
    var s' := Step(s, e);
    assert Run(es + [e]) == s';
    RunKeepsLeases(es);
    EveryCallTrackedOrCancelled(es);
    StepKeepsCalls(s, e, Lost(es));
    var all := if LateBegin(s, e) then late + {e.call} else late;
    if e.BeginCall? && CanHappen(s, e) {
      BeginKeepsLate(s, e, late);
    } else if !e.BeginCall? {
      OrdinaryStepKeepsLate(s, e, late);
    }
    LateCallsAfter(es, e);
    PardonOnlyRunning(s', all, LateCalls(es + [e]));
    forall c | c in LateCalls(es + [e]) ensures c in s'.calls && Dead(s', s'.calls[c].token) {
      LateStaysDead(es, e, c);
    }
  }

  lemma LateCallsAfter(es: seq<Event>, e: Event)
    ensures var all := if LateBegin(Run(es), e) then LateCalls(es) + {e.call} else LateCalls(es);
            LateCalls(es + [e]) == set c | c in all && c in Step(Run(es), e).calls
  {
    assert (es + [e])[..|es + [e]| - 1] == es;
    assert LateBegin(Run(es), e) ==> e.call in Step(Run(es), e).calls;
  }

  lemma LateStaysDead(es: seq<Event>, e: Event, c: CallId)
    requires LateOk(Run(es), LateCalls(es)) && c in LateCalls(es + [e])
    ensures var s' := Step(Run(es), e); c in s'.calls && Dead(s', s'.calls[c].token)
  {
    var s := Run(es);
    LateCallsAfter(es, e);
    RunKeepsLeases(es);
    if LateBegin(s, e) && c == e.call {
      assert TaskLeaseOk(s, s.tasks[e.task]);
      DeadStaysDead(s, e, s.tasks[e.task].token);
    } else {
      CallStays(s, e, c);
      DeadStaysDead(s, e, s.calls[c].token);
    }
  }

  lemma CallStays(s: State, e: Event, c: CallId)
    requires c in s.calls && c in Step(s, e).calls
    ensures Step(s, e).calls[c] == s.calls[c]
  {
    if CanHappen(s, e) {
      if OperationEvent(e) { OperationFrame(s, e); } else if LeaseEvent(e) { LeaseFrame(s, e); }
    }
  }

  lemma {:induction false} RunKeepsLate(es: seq<Event>)
    ensures LateOk(Run(es), LateCalls(es))
  {
    if es != [] {
      RunKeepsLate(es[..|es| - 1]);
      StepKeepsLate(es[..|es| - 1], es[|es| - 1]);
      assert es[..|es| - 1] + [es[|es| - 1]] == es;
    }
  }

  /** No call of this run was registered late. */
  ghost predicate AllInTime(es: seq<Event>) {
    forall k | 0 <= k < |es| :: !LateBegin(Run(es[..k]), es[k])
  }

  lemma {:induction false} InTimeMeansNoneLate(es: seq<Event>)
    requires AllInTime(es)
    ensures LateCalls(es) == {}
  {
    if es != [] {
      var before := es[..|es| - 1];
      assert AllInTime(before) by {
        forall k | 0 <= k < |before| ensures !LateBegin(Run(before[..k]), before[k]) { assert before[..k] == es[..k]; }
      }
      InTimeMeansNoneLate(before);
      assert !LateBegin(Run(before), es[|es| - 1]);
    }
  }

  /** Every tracked, uncancelled call has a live lease or a cancellation on its way, in every
      run in which each call was registered while that was so of its token. */
  lemma TrackedCallsStayLive(es: seq<Event>)
    requires AllInTime(es)
    ensures CallsLive(Run(es))
  {
    RunKeepsLate(es);
    InTimeMeansNoneLate(es);
    assert Pardoned(Run(es), {}) == Run(es);
  }

  /** Once revocations, replacements, starts and shutdowns have finished, a running call that
      is neither cancelled nor lost belongs to a live lease exactly if it was not registered
      late. Late calls have no lease in any case. */
  lemma RunningCallHasLeaseIffInTime(es: seq<Event>, c: CallId)
    requires Settled(Run(es)) && c in Run(es).calls && c !in Run(es).cancelled
    ensures c !in Lost(es) ==> (Run(es).calls[c].token in Run(es).clients <==> c !in LateCalls(es))
    ensures c in LateCalls(es) ==> Run(es).calls[c].token !in Run(es).clients
  {
    var s := Run(es);
    EveryCallTrackedOrCancelled(es);
    RunKeepsLate(es);
    if c !in Lost(es) {
      assert Tracked(s, c);
      assert EntryLive(Pardoned(s, LateCalls(es)), KeyOf(s.calls[c]));
    }
  }
}
