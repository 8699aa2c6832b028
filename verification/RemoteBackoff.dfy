/** How long the mobile client waits before it reconnects: told from the events alone, one,
    two, five, ten and then thirty seconds for one loss after another, and from the start
    again once connected, resumed or greeted by the relay. */
module RemoteBackoff {
  import opened Wrappers
  import opened RemoteClient
  import opened RemoteReconnect

  /** An attempt to open a socket. */
  predicate Attempts(s: State, e: Event) {
    || e.Connect?
    || (e.Resume? && s.conn.stopped && s.conn.config.Some?)
    || (e.RetryFires? && e.timer in s.conn.retries)
  }

  /** The attempt fails, or the installed socket is lost. */
  predicate Fails(s: State, e: Event) {
    || (Attempts(s, e) && !e.opens)
    || ((e.Closed? || e.Errored?) && e.socket < |s.conn.sockets| && Current(s.conn, e.socket) && s.conn.socket == Some(e.socket))
  }

  /** The count starts again. */
  predicate Resets(s: State, e: Event) {
    || e.Connect?
    || (e.Resume? && s.conn.stopped && s.conn.config.Some?)
    || (e.Receives? && e.socket < |s.conn.sockets| && Current(s.conn, e.socket) && e.message.TunnelReady?)
  }

  /** Failures since the count last started. */
  function Failures(es: seq<Event>): nat {
    if es == [] then 0
    else
      var before, e := es[..|es| - 1], es[|es| - 1];
      var s := Run(before);
      (if Resets(s, e) then 0 else Failures(before)) + (if Fails(s, e) then 1 else 0)
  }

  /** What the n-th failure in a row costs, in milliseconds. */
  function Wait(n: nat): nat {
    if n <= 1 then 1000 else if n == 2 then 2000 else if n == 3 then 5000 else if n == 4 then 10000 else 30000
  }

  predicate Counts(c: Conn, failures: nat) { c.retryIndex == if failures < 4 then failures else 4 }

  lemma MarkKeepsIndex(s: State, now: nat, random: string)
    ensures MarkPeerOnline(s, now, random).conn.retryIndex == s.conn.retryIndex
  {
  }

  lemma ResponseKeepsIndex(s: State, id: RequestId, ok: bool, deviceId: DeviceId, credential: string)
    ensures OnResponse(s, id, ok, deviceId, credential).conn.retryIndex == s.conn.retryIndex
  {
  }

  lemma MessageCounts(s: State, e: Event)
    requires e.Receives? && CanHappen(s, e)
    ensures Step(s, e).conn.retryIndex == if Resets(s, e) then 0 else s.conn.retryIndex
  {
    match e.message
    case TunnelReady(_) => MarkKeepsIndex(s.(conn := s.conn.(retryIndex := 0)), e.now, e.random);
    case PeerOnline => MarkKeepsIndex(s, e.now, e.random);
    case Response(id, ok, deviceId, credential) => ResponseKeepsIndex(s, id, ok, deviceId, credential);
    case _ =>
  }

  lemma UserCallCounts(s: State, e: Event, failures: nat)
    requires LoopOk(s.conn) && Counts(s.conn, failures) && (e.Connect? || e.Disconnect? || e.Suspend? || e.Resume?)
    ensures Counts(Step(s, e).conn, (if Resets(s, e) then 0 else failures) + (if Fails(s, e) then 1 else 0))
  {
  }

  lemma StepCounts(s: State, e: Event, failures: nat)
    requires LoopOk(s.conn) && Counts(s.conn, failures)
    ensures Counts(Step(s, e).conn, (if Resets(s, e) then 0 else failures) + (if Fails(s, e) then 1 else 0))
  {
    if e.Receives? && CanHappen(s, e) {
      MessageCounts(s, e);
    } else if e.Connect? || e.Disconnect? || e.Suspend? || e.Resume? {
      UserCallCounts(s, e, failures);
    }
  }

  lemma {:induction false} RunCounts(es: seq<Event>)
    ensures LoopOk(Run(es).conn) && Counts(Run(es).conn, Failures(es))
  {
    LoopNeverStallsNorDoubles(es);
    if es != [] {
      RunCounts(es[..|es| - 1]);
      StepCounts(Run(es[..|es| - 1]), es[|es| - 1], Failures(es[..|es| - 1]));
    }
  }

  lemma FailureArms(s: State, e: Event, failures: nat)
    requires LoopOk(s.conn) && Counts(s.conn, failures) && Fails(s, e)
    ensures var c := Step(s, e).conn;
            Waiting(c) && c.retries[c.retryTimer.value].delay == Wait((if Resets(s, e) then 0 else failures) + 1)
  {
  }

  /** Every failure arms the one reconnect timer, with the delay its place in the row calls for. */
  lemma FailureWaits(es: seq<Event>, e: Event)
    requires Fails(Run(es), e)
    ensures var c := Step(Run(es), e).conn; Waiting(c) && c.retries[c.retryTimer.value].delay == Wait(Failures(es + [e]))
  {
    assert (es + [e])[..|es + [e]| - 1] == es;
    RunCounts(es);
    FailureArms(Run(es), e, Failures(es));
  }
}
