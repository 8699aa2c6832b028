/** What the mobile client holds, told from the events alone: its configuration, the device
    identity it goes by, the events it has received; and that nothing of an earlier
    connection reaches it any more. */
module RemoteIdentity {
  import opened Wrappers
  import opened RemoteClient
  import opened RemoteReconnect

  // ------------------------------------------------------------- what is held

  datatype Held = Held(config: Option<Config>, device: DeviceId, heard: seq<RemoteEvent>)

  /** A good answer to a request of this purpose that is still pending. */
  predicate Answers(s: State, e: Event, purpose: Purpose) {
    && e.Receives? && e.socket < |s.conn.sockets| && Current(s.conn, e.socket) && e.message.Response? && e.message.ok
    && e.message.id in s.reqs.pending && s.reqs.pending[e.message.id].purpose == purpose
  }

  /** An event from the desktop, over the present connection. */
  predicate Hears(s: State, e: Event) {
    e.Receives? && e.socket < |s.conn.sockets| && Current(s.conn, e.socket) && e.message.EventMessage?
  }

  /** Connecting sets out with the configuration given; disconnecting forgets everything. The
      desktop's answers name the device, which is kept in the configuration, and a pairing
      brings the credential in place of the token. */
  function HeldAfter(s: State, e: Event, h: Held): Held {
    if e.Connect? then Held(Some(e.config), e.config.deviceId, [])
    else if e.Disconnect? then Held(None, "", [])
    else if Hears(s, e) then h.(heard := h.heard + [e.message.event])
    else if Answers(s, e, Identify) && h.config.Some? then
      var device := if e.message.deviceId != "" then e.message.deviceId else h.device;
      if device == "" then h else Held(Some(h.config.value.(deviceId := device)), device, h.heard)
    else if Answers(s, e, Pair) && h.config.Some? then
      var device := if e.message.deviceId != "" then e.message.deviceId else h.device;
      Held(Some(Config(e.message.credential, device, "")), device, h.heard)
    else h
  }

  function HeldIn(es: seq<Event>): Held {
    if es == [] then Held(None, "", []) else HeldAfter(Run(es[..|es| - 1]), es[|es| - 1], HeldIn(es[..|es| - 1]))
  }

  predicate Holds(s: State, h: Held) {
    s.conn.config == h.config && s.inbox.deviceId == h.device && s.inbox.arrived == h.heard
  }

  lemma IdentifiedHolds(s: State, e: Event, h: Held)
    requires Holds(s, h) && Answers(s, e, Identify)
    ensures Holds(Identified(s.(reqs := Settle(s.reqs, e.message.id)), e.message.deviceId), HeldAfter(s, e, h))
  {
  }

  lemma PairedHolds(s: State, e: Event, h: Held)
    requires Holds(s, h) && Answers(s, e, Pair)
    ensures Holds(Paired(s.(reqs := Settle(s.reqs, e.message.id)), e.message.deviceId, e.message.credential), HeldAfter(s, e, h))
  {
  }

  /** Responses that bring nothing: refusals, answers to the page, and late ones. */
  lemma PlainReceiptHolds(s: State, e: Event, h: Held)
    requires Holds(s, h) && e.Receives? && e.socket < |s.conn.sockets| && Current(s.conn, e.socket) && e.message.Response?
    requires !Answers(s, e, Identify) && !Answers(s, e, Pair)
    ensures Holds(OnResponse(s, e.message.id, e.message.ok, e.message.deviceId, e.message.credential), h)
  {
  }

  lemma ReceiptHolds(s: State, e: Event, h: Held)
    requires Holds(s, h) && e.Receives? && e.socket < |s.conn.sockets| && Current(s.conn, e.socket) && e.message.Response?
    ensures Holds(Step(s, e), HeldAfter(s, e, h))
  {
    if Answers(s, e, Identify) { IdentifiedHolds(s, e, h); }
    else if Answers(s, e, Pair) { PairedHolds(s, e, h); }
    else { PlainReceiptHolds(s, e, h); }
  }

  lemma MarkHolds(s: State, now: nat, random: string)
    ensures var s' := MarkPeerOnline(s, now, random); s'.conn.config == s.conn.config && s'.inbox == s.inbox
  {
  }

  lemma MessageHolds(s: State, e: Event, h: Held)
    requires Holds(s, h) && e.Receives? && e.socket < |s.conn.sockets| && Current(s.conn, e.socket) && !e.message.Response?
    ensures Holds(Step(s, e), HeldAfter(s, e, h))
  {
    match e.message
    case TunnelReady(_) => MarkHolds(s.(conn := s.conn.(retryIndex := 0)), e.now, e.random);
    case PeerOnline => MarkHolds(s, e.now, e.random);
    case _ =>
  }

  lemma OtherHolds(s: State, e: Event, h: Held)
    requires Holds(s, h) && !(e.Receives? && e.socket < |s.conn.sockets| && Current(s.conn, e.socket))
    ensures Holds(Step(s, e), HeldAfter(s, e, h))
  {
  }

  /** In every run. */
  lemma {:induction false} ClientHolds(es: seq<Event>)
    ensures Holds(Run(es), HeldIn(es))
  {
    if es != [] {
      var before, e := es[..|es| - 1], es[|es| - 1];
      var s := Run(before);
      ClientHolds(before);
      if !(e.Receives? && e.socket < |s.conn.sockets| && Current(s.conn, e.socket)) { OtherHolds(s, e, HeldIn(before)); }
      else if e.message.Response? { ReceiptHolds(s, e, HeldIn(before)); }
      else { MessageHolds(s, e, HeldIn(before)); }
    }
  }

  // ------------------------------------------------- connections of the past

  /** Sockets belong to the generation they were opened in. */
  ghost predicate SocketsOk(c: Conn) { forall k | 0 <= k < |c.sockets| :: c.sockets[k] <= c.generation }

  /** Generations only grow, and sockets keep theirs. */
  ghost predicate Onward(c: Conn, c': Conn) {
    c.generation <= c'.generation && c.sockets <= c'.sockets && (SocketsOk(c) ==> SocketsOk(c'))
  }

  lemma StepOnward(s: State, e: Event)
    ensures Onward(s.conn, Step(s, e).conn)
  {
    if e.Receives? && e.socket < |s.conn.sockets| && Current(s.conn, e.socket) {
      assert SameLoop(s.conn, OnMessage(s, e.message, e.now, e.random).conn);
    }
  }

  lemma {:induction false} RunOnward(s: State, es: seq<Event>)
    ensures Onward(s.conn, RunFrom(s, es).conn)
  {
    if es != [] {
      RunOnward(s, es[..|es| - 1]);
      StepOnward(RunFrom(s, es[..|es| - 1]), es[|es| - 1]);
    }
  }

  /** The calls that end a connection, or begin a new one. */
  predicate EndsConnection(s: State, e: Event) {
    || e.Connect? || e.Disconnect?
    || (e.Suspend? && !s.conn.stopped && s.conn.config.Some?)
    || (e.Resume? && s.conn.stopped && s.conn.config.Some?)
  }

  predicate CallbackOf(e: Event, k: SocketId) {
    (e.Opened? || e.Receives? || e.Closed? || e.Errored?) && e.socket == k
  }

  /** Every socket made before is of an earlier generation. */
  ghost predicate Aged(c: Conn, c': Conn) { c.sockets <= c'.sockets && forall k | 0 <= k < |c.sockets| :: c'.sockets[k] < c'.generation }

  lemma StopAges(c: Conn)
    requires SocketsOk(c)
    ensures Aged(c, Stop(c))
  {
  }

  lemma RestartAges(c: Conn, c1: Conn, config: Config, opens: bool)
    requires SocketsOk(c) && c1.sockets == c.sockets && c.generation <= c1.generation
    ensures Aged(c, Restart(c1, config, opens))
  {
  }

  lemma EndingAgesSockets(s: State, e: Event)
    requires SocketsOk(s.conn) && EndsConnection(s, e)
    ensures Aged(s.conn, Step(s, e).conn)
  {
    StopAges(s.conn);
    if e.Connect? { RestartAges(s.conn, Stop(s.conn), e.config, e.opens); }
    if e.Resume? { RestartAges(s.conn, s.conn, s.conn.config.value, e.opens); }
  }

  /** Once the user connects anew, disconnects, suspends or resumes, no callback of a socket
      made before changes anything, in any continuation. */
  lemma OldSocketsAreDead(es: seq<Event>, e: Event, later: seq<Event>, k: SocketId, callback: Event)
    requires EndsConnection(Run(es), e) && k < |Run(es).conn.sockets| && CallbackOf(callback, k)
    ensures var s := RunFrom(Step(Run(es), e), later); Step(s, callback) == s
  {
    RunOnward(INIT, es);
    EndingAgesSockets(Run(es), e);
    RunOnward(Step(Run(es), e), later);
    var s := RunFrom(Step(Run(es), e), later);
    assert s.conn.sockets[k] == Step(Run(es), e).conn.sockets[k];
    assert !Current(s.conn, k);
  }

  // ------------------------------------------------------------ the user's calls

  /** Going to the background and coming back: the same client under a new connection, with
      its configuration and everything received kept, and the backoff from the start. */
  lemma SuspendThenResume(es: seq<Event>)
    requires !Run(es).conn.stopped
    ensures var s, s' := Run(es), Step(Step(Run(es), Suspend), Resume(true));
            && s'.conn.config == s.conn.config && s'.inbox == s.inbox && !s'.conn.stopped
            && s'.conn.socket == Some(|s.conn.sockets|) && s'.conn.retryIndex == 0 && s'.conn.generation > s.conn.generation
  {
    LoopNeverStallsNorDoubles(es);
  }

  /** After disconnecting there is nothing to suspend or to resume. */
  lemma DisconnectedStaysSo(s: State, opens: bool)
    ensures var s' := Step(s, Disconnect);
            s'.conn.stopped && Step(s', Suspend) == s' && Step(s', Resume(opens)) == s'
  {
  }
}
