/** The reconnect loop never stalls and never doubles. */
module RemoteReconnect {
  import opened Wrappers
  import opened RemoteClient

  /** A running client has a config and exactly one of a live socket of this generation and
      one armed retry timer of this generation; a stopped client has neither. */
  ghost predicate LoopOk(c: Conn) {
    && (c.stopped ==> c.socket.None? && c.retryTimer.None? && c.retries == map[])
    && (!c.stopped ==> c.config.Some?)
    && (!c.stopped && c.socket.Some? ==>
          c.socket.value < |c.sockets| && Current(c, c.socket.value) && c.retryTimer.None? && c.retries == map[])
    && (!c.stopped && c.socket.None? ==> Waiting(c))
    && c.retryIndex < |RETRY_DELAYS|
    && (forall t <- c.retries :: t < c.nextTimer)
  }

  /** Exactly one reconnect timer is armed, and it is the one the client remembers. */
  predicate Waiting(c: Conn) {
    c.retryTimer.Some? && c.retries.Keys == {c.retryTimer.value} && c.retries[c.retryTimer.value].generation == c.generation
  }

  /** Ready to open: nothing installed, nothing armed. */
  ghost predicate Idle(c: Conn) {
    !c.stopped && c.config.Some? && c.socket.None? && c.retries == map[] && c.retryIndex < |RETRY_DELAYS|
  }

  lemma OpenSettles(c: Conn, opens: bool)
    requires Idle(c)
    ensures LoopOk(Open(c, c.generation, opens))
  {
  }

  lemma StopSettles(c: Conn)
    requires LoopOk(c)
    ensures LoopOk(Stop(c)) && Stop(c).retries == map[]
  {
    var c1 := ClearRetry(c);
    assert c1.retries == map[];
  }

  lemma LossSettles(c: Conn, pairing: bool)
    requires LoopOk(c) && !c.stopped && c.socket.Some?
    ensures LoopOk(LoseSocket(c, pairing)) && Waiting(LoseSocket(c, pairing))
  {
  }

  lemma RetrySettles(c: Conn, t: TimerId, opens: bool)
    requires LoopOk(c) && t in c.retries
    ensures var c' := Open(c.(retries := c.retries - {t}), c.retries[t].generation, opens); LoopOk(c') && (opens ==> c'.socket.Some?)
  {
    assert c.retries - {t} == map[];
  }

  lemma UserCallKeepsLoop(s: State, e: Event)
    requires LoopOk(s.conn) && (e.Connect? || e.Disconnect? || e.Suspend? || e.Resume?)
    ensures LoopOk(Step(s, e).conn)
  {
    StopSettles(s.conn);
    match e
    case Connect(config, opens) =>
      OpenSettles(Stop(s.conn).(config := Some(config), stopped := false, retryIndex := 0, generation := s.conn.generation + 2), opens);
    case Disconnect =>
    case Suspend =>
    case Resume(opens) =>
      if s.conn.stopped && s.conn.config.Some? {
        OpenSettles(s.conn.(stopped := false, retryIndex := 0, generation := s.conn.generation + 1), opens);
      }
  }

  lemma LossKeepsLoop(s: State, e: Event)
    requires LoopOk(s.conn) && CanHappen(s, e) && (e.Closed? || e.Errored?)
    ensures LoopOk(Step(s, e).conn)
  {
    if s.conn.socket == Some(e.socket) && Current(s.conn, e.socket) {
      LossSettles(s.conn, e.Closed? && s.conn.pairing && !PairWaiting(s.reqs));
    }
  }

  lemma StepKeepsLoop(s: State, e: Event)
    requires LoopOk(s.conn)
    ensures LoopOk(Step(s, e).conn)
  {
    if CanHappen(s, e) {
      if e.Connect? || e.Disconnect? || e.Suspend? || e.Resume? {
        UserCallKeepsLoop(s, e);
      } else if e.RetryFires? {
        RetrySettles(s.conn, e.timer, e.opens);
      } else if e.Closed? || e.Errored? {
        LossKeepsLoop(s, e);
      } else {
        assert SameLoop(s.conn, Step(s, e).conn);
      }
    }
  }

  /** Between callbacks, in every run. */
  lemma {:induction false} LoopNeverStallsNorDoubles(es: seq<Event>)
    ensures LoopOk(Run(es).conn)
  {
    if es != [] {
      LoopNeverStallsNorDoubles(es[..|es| - 1]);
      StepKeepsLoop(Run(es[..|es| - 1]), es[|es| - 1]);
    }
  }

  /** A callback of a socket that is not the installed one of this generation (a close after
      an error, or anything left over from before) leaves the loop alone. */
  lemma StaleCallbacksKeepLoop(s: State, e: Event)
    requires LoopOk(s.conn) && CanHappen(s, e) && (e.Closed? || e.Errored?)
    requires s.conn.sockets[e.socket] != s.conn.generation || s.conn.socket != Some(e.socket)
    ensures Step(s, e) == s
  {
  }

  /** Progress: when the armed timer of a waiting client fires and a socket can be made, the
      client has it installed; when the installed socket closes, a timer is armed. */
  lemma LoopProgresses(es: seq<Event>)
    requires !Run(es).conn.stopped
    ensures var c := Run(es).conn;
            && (c.socket.None? ==> exists t <- c.retries :: Step(Run(es), RetryFires(t, true)).conn.socket.Some?)
            && (c.socket.Some? ==> Waiting(Step(Run(es), Closed(c.socket.value)).conn))
  {
    var s := Run(es);
    LoopNeverStallsNorDoubles(es);
    if s.conn.socket.None? {
      var t := s.conn.retryTimer.value;
      assert t in s.conn.retries;
      RetrySettles(s.conn, t, true);
      assert Step(s, RetryFires(t, true)).conn.socket.Some?;
    } else {
      LossSettles(s.conn, s.conn.pairing && !PairWaiting(s.reqs));
    }
  }
}
