/** When the mobile client sends a request: exactly while its socket is open and the desktop
    counts as online, which is told here from the messages received and from what became of
    the identity and pairing requests. */
module RemoteSending {
  import opened Wrappers
  import opened RemoteClient
  import opened RemoteReconnect
  import opened RemoteRequests

  // ------------------------------------------------------- told from the events

  /** A message of the present generation that says the desktop is online. */
  predicate OnlineNotice(s: State, e: Event) {
    e.Receives? && e.socket < |s.conn.sockets| && Current(s.conn, e.socket) && (e.message.PeerOnline? || e.message == TunnelReady(true))
  }

  predicate OfflineNotice(s: State, e: Event) {
    e.Receives? && e.socket < |s.conn.sockets| && Current(s.conn, e.socket) && e.message.PeerOffline?
  }

  /** Connecting anew, disconnecting, suspending a running client, or losing the installed
      socket. */
  predicate DropsLink(s: State, e: Event) {
    || e.Connect? || e.Disconnect?
    || (e.Suspend? && !s.conn.stopped)
    || ((e.Closed? || e.Errored?) && e.socket < |s.conn.sockets| && Current(s.conn, e.socket) && s.conn.socket == Some(e.socket))
  }

  /** The request whose outcome this event is, if it is pending. */
  predicate Concerns(s: State, e: Event, id: RequestId) {
    && id in s.reqs.pending
    && ((e.Receives? && e.socket < |s.conn.sockets| && Current(s.conn, e.socket) && e.message.Response? && e.message.id == id)
        || (e.ExpiryFires? && e.timer in s.reqs.expiries && s.reqs.expiries[e.timer] == id)
        || (e.SendFails? && e.id == id))
  }

  /** An identity or pairing request comes to nothing: it was refused, could not be sent, got
      no answer in time, or the answer brought no identity to a client without one. */
  ghost predicate IdentityFails(s: State, e: Event) {
    exists id :: Concerns(s, e, id) &&
      match s.reqs.pending[id].purpose
      case Page => false
      case Identify => !e.Receives? || !e.message.ok || (e.message.deviceId == "" && s.inbox.deviceId == "")
      case Pair => !e.Receives? || !e.message.ok
  }

  /** The client holds what an identity or pairing request takes. */
  predicate HoldsKey(c: Conn) {
    c.config.Some? && (c.config.value.credential != "" || c.config.value.pairingToken != "")
  }

  /** Whether the socket counts as open after this step. */
  predicate LinkAfter(s: State, e: Event, link: bool) {
    if DropsLink(s, e) then false
    else link || (e.Opened? && e.socket < |s.conn.sockets| && s.conn.config.Some? && Current(s.conn, e.socket))
  }

  /** Whether the desktop counts as online after this step: the last notice said so, and
      since then the link has not been dropped and no identity or pairing request has failed.
      A client that holds a key asks for its identity or pairing at once, so without a link
      that fails at once. */
  ghost predicate OnlineAfter(s: State, e: Event, link: bool, online: bool) {
    if OnlineNotice(s, e) then (link && s.conn.socket.Some?) || !HoldsKey(s.conn)
    else online && !OfflineNotice(s, e) && !DropsLink(s, e) && !IdentityFails(s, e)
  }

  predicate LinkOpen(es: seq<Event>) {
    es != [] && LinkAfter(Run(es[..|es| - 1]), es[|es| - 1], LinkOpen(es[..|es| - 1]))
  }

  ghost predicate DesktopOnline(es: seq<Event>) {
    es != [] && OnlineAfter(Run(es[..|es| - 1]), es[|es| - 1], LinkOpen(es[..|es| - 1]), DesktopOnline(es[..|es| - 1]))
  }

  // ------------------------------------------------------------- what is issued

  /** Exactly one request more, pending under a new id with a timer of its own. */
  ghost predicate OneMore(r: Requests, r': Requests, purpose: Purpose) {
    exists id, t :: id !in r.issued && id !in r.pending && t !in r.expiries
      && r'.pending == r.pending[id := Pending(t, purpose)] && r'.expiries == r.expiries[t := id]
      && r'.issued.Keys == r.issued.Keys + {id} && r'.settled == r.settled
  }

  lemma IssueIsOneMore(r: Requests, purpose: Purpose, now: nat, random: string)
    requires ReqsOk(r)
    ensures OneMore(r, Issue(r, purpose, now, random), purpose)
  {
    IssuedIdIsNew(r, now, random);
    var id := MakeId(now, r.sequence + 1, random);
    assert id !in r.issued && id !in r.pending && r.nextTimer !in r.expiries;
  }

  ghost predicate Waits(r: Requests, purpose: Purpose) { exists id <- r.pending :: r.pending[id].purpose == purpose }

  /** The client never remembers an identity or pairing request that is not pending, and
      requests are pending only while the installed socket is open. */
  ghost predicate FlagsOk(c: Conn, r: Requests) {
    && (c.identifying ==> Waits(r, Identify)) && (c.pairing ==> Waits(r, Pair))
    && (r.pending != map[] ==> c.socket.Some? && c.socketOpen)
  }

  ghost predicate Sound(s: State) { LoopOk(s.conn) && ReqsOk(s.reqs) && FlagsOk(s.conn, s.reqs) }

  lemma IssueKeepsFlags(c: Conn, c': Conn, r: Requests, purpose: Purpose, now: nat, random: string)
    requires ReqsOk(r) && FlagsOk(c, r) && c'.socket == c.socket && c'.socketOpen == c.socketOpen && c.socket.Some? && c.socketOpen
    requires c'.identifying ==> c.identifying || purpose.Identify?
    requires c'.pairing ==> c.pairing || purpose.Pair?
    ensures FlagsOk(c', Issue(r, purpose, now, random))
  {
    IssuedIdIsNew(r, now, random);
    var r' := Issue(r, purpose, now, random);
    var id := MakeId(now, r.sequence + 1, random);
    assert id in r'.pending && r'.pending[id].purpose == purpose;
    forall p | Waits(r, p) ensures Waits(r', p) {
      var u :| u in r.pending && r.pending[u].purpose == p;
      assert u in r'.pending && r'.pending[u].purpose == p;
    }
  }

  lemma SettleKeepsFlags(c: Conn, c': Conn, r: Requests, id: RequestId)
    requires FlagsOk(c, r) && id in r.pending && c'.socket == c.socket && c'.socketOpen == c.socketOpen
    requires c'.identifying ==> c.identifying && !r.pending[id].purpose.Identify?
    requires c'.pairing ==> c.pairing && !r.pending[id].purpose.Pair?
    ensures FlagsOk(c', Settle(r, id))
  {
    forall p | Waits(r, p) && p != r.pending[id].purpose ensures Waits(Settle(r, id), p) {
      var u :| u in r.pending && r.pending[u].purpose == p;
      assert u in Settle(r, id).pending && Settle(r, id).pending[u].purpose == p;
    }
  }

  // ------------------------------------------------------------------ every step

  /** What is known of a step: the flags stay in order, and the socket and the desktop count
      as open and online just as told from the events. */
  ghost predicate Follows(s: State, e: Event) {
    var s' := Step(s, e);
    && FlagsOk(s'.conn, s'.reqs)
    && s'.conn.socketOpen == LinkAfter(s, e, s.conn.socketOpen)
    && s'.conn.peerOnline == OnlineAfter(s, e, s.conn.socketOpen, s.conn.peerOnline)
  }

  /** An online notice, with what it makes the client do. */
  lemma MarkFollows(s: State, now: nat, random: string)
    requires Sound(s)
    ensures var s' := MarkPeerOnline(s, now, random);
            && FlagsOk(s'.conn, s'.reqs) && s'.conn.socketOpen == s.conn.socketOpen
            && s'.conn.peerOnline == ((s.conn.socketOpen && s.conn.socket.Some?) || !HoldsKey(s.conn))
  {
    var s' := MarkPeerOnline(s, now, random);
    if s.conn.socket.Some? && s.conn.socketOpen && s'.reqs != s.reqs {
      IssueKeepsFlags(s.conn, s'.conn, s.reqs, if s'.conn.identifying && !s.conn.identifying then Identify else Pair, now, random);
    }
  }

  lemma NoticeFollows(s: State, e: Event)
    requires Sound(s) && OnlineNotice(s, e)
    ensures Follows(s, e)
  {
    if e.message.PeerOnline? {
      MarkFollows(s, e.now, e.random);
    } else {
      MarkFollows(s.(conn := s.conn.(retryIndex := 0)), e.now, e.random);
    }
  }

  /** The outcome of one pending request decides whether identity or pairing failed. */
  lemma FailsIff(s: State, e: Event, id: RequestId)
    requires Concerns(s, e, id)
    ensures IdentityFails(s, e) <==>
              match s.reqs.pending[id].purpose
              case Page => false
              case Identify => !e.Receives? || !e.message.ok || (e.message.deviceId == "" && s.inbox.deviceId == "")
              case Pair => !e.Receives? || !e.message.ok
  {
    forall u | Concerns(s, e, u) ensures u == id {}
  }

  lemma FailFollows(s: State, id: RequestId)
    requires FlagsOk(s.conn, s.reqs) && id in s.reqs.pending
    ensures var s' := Fail(s, id);
            && FlagsOk(s'.conn, s'.reqs) && s'.conn.socketOpen == s.conn.socketOpen
            && s'.conn.peerOnline == (s.conn.peerOnline && s.reqs.pending[id].purpose.Page?)
  {
    SettleKeepsFlags(s.conn, Fail(s, id).conn, s.reqs, id);
  }

  lemma ExpiryFollows(s: State, e: Event)
    requires FlagsOk(s.conn, s.reqs) && CanHappen(s, e) && (e.ExpiryFires? || e.SendFails?)
    ensures Follows(s, e)
  {
    var id := if e.ExpiryFires? then s.reqs.expiries[e.timer] else e.id;
    if id in s.reqs.pending {
      FailFollows(s, id);
      FailsIff(s, e, id);
    } else {
      assert Step(s, e) == s && forall u :: !Concerns(s, e, u);
    }
  }

  /** The answer to an identity request leaves the client as it was, or without identity. */
  lemma AnswerFollows(s: State, id: RequestId, ok: bool, deviceId: DeviceId, credential: string)
    requires FlagsOk(s.conn, s.reqs) && s.conn.config.Some? && id in s.reqs.pending
    ensures var s' := OnResponse(s, id, ok, deviceId, credential);
            && FlagsOk(s'.conn, s'.reqs) && s'.conn.socketOpen == s.conn.socketOpen
            && s'.conn.peerOnline == (s.conn.peerOnline && match s.reqs.pending[id].purpose
                 case Page => true
                 case Identify => ok && (deviceId != "" || s.inbox.deviceId != "")
                 case Pair => ok)
  {
    SettleKeepsFlags(s.conn, OnResponse(s, id, ok, deviceId, credential).conn, s.reqs, id);
  }

  lemma ResponseFollows(s: State, e: Event)
    requires LoopOk(s.conn) && FlagsOk(s.conn, s.reqs)
    requires e.Receives? && e.message.Response? && e.socket < |s.conn.sockets| && Current(s.conn, e.socket)
    ensures Follows(s, e)
  {
    var id := e.message.id;
    assert Step(s, e) == OnResponse(s, id, e.message.ok, e.message.deviceId, e.message.credential);
    if id in s.reqs.pending {
      AnswerFollows(s, id, e.message.ok, e.message.deviceId, e.message.credential);
      FailsIff(s, e, id);
    } else {
      assert forall u :: !Concerns(s, e, u);
    }
  }

  lemma CallDropFollows(s: State, e: Event)
    requires LoopOk(s.conn) && DropsLink(s, e) && (e.Connect? || e.Disconnect? || e.Suspend?)
    ensures Follows(s, e)
  {
  }

  lemma LossFollows(s: State, e: Event)
    requires FlagsOk(s.conn, s.reqs) && DropsLink(s, e) && (e.Closed? || e.Errored?)
    ensures Follows(s, e)
  {
  }

  lemma DropFollows(s: State, e: Event)
    requires Sound(s) && DropsLink(s, e)
    ensures Follows(s, e)
  {
    if e.Closed? || e.Errored? { LossFollows(s, e); } else { CallDropFollows(s, e); }
  }

  lemma AskFollows(s: State, e: Event)
    requires Sound(s) && e.Ask?
    ensures Follows(s, e)
  {
    if s.conn.CanSend() { IssueKeepsFlags(s.conn, s.conn, s.reqs, Page, e.now, e.random); }
  }

  lemma OfflineFollows(s: State, e: Event)
    requires Sound(s) && OfflineNotice(s, e)
    ensures Follows(s, e)
  {
    assert Step(s, e) == s.(conn := s.conn.(peerOnline := false, pairing := false, identifying := false));
  }

  /** Messages that are neither notices of the desktop coming or going nor responses. */
  lemma MessageFollows(s: State, e: Event)
    requires Sound(s) && e.Receives? && e.socket < |s.conn.sockets| && Current(s.conn, e.socket)
    requires e.message == TunnelReady(false) || e.message.EventMessage? || e.message.OtherMessage?
    ensures Follows(s, e)
  {
    assert Step(s, e).reqs == s.reqs;
  }

  /** Resuming, a reconnect timer, a socket opening, a callback of a socket lost before. */
  lemma OtherFollows(s: State, e: Event)
    requires Sound(s) && CanHappen(s, e) && !DropsLink(s, e) && !e.Ask? && !e.ExpiryFires? && !e.SendFails? && !e.Receives?
    ensures Follows(s, e)
  {
    assert Step(s, e).reqs == s.reqs;
  }

  /** What cannot happen, or comes over a socket of the past. */
  lemma NothingFollows(s: State, e: Event)
    requires Sound(s) && !DropsLink(s, e) && (CanHappen(s, e) ==> e.Receives? && !Current(s.conn, e.socket))
    ensures Follows(s, e)
  {
    assert Step(s, e) == s;
  }

  lemma StepFollows(s: State, e: Event)
    requires Sound(s)
    ensures Follows(s, e)
  {
    if OnlineNotice(s, e) { NoticeFollows(s, e); }
    else if DropsLink(s, e) { DropFollows(s, e); }
    else if !CanHappen(s, e) || (e.Receives? && !Current(s.conn, e.socket)) { NothingFollows(s, e); }
    else if e.Ask? { AskFollows(s, e); }
    else if e.ExpiryFires? || e.SendFails? { ExpiryFollows(s, e); }
    else if !e.Receives? { OtherFollows(s, e); }
    else if e.message.Response? { ResponseFollows(s, e); }
    else if e.message.PeerOffline? { OfflineFollows(s, e); }
    else { MessageFollows(s, e); }
  }

  /** In every run the client takes its socket for open and the desktop for online just as
      the events tell. */
  lemma {:induction false} RunFollows(es: seq<Event>)
    ensures Sound(Run(es)) && Run(es).conn.socketOpen == LinkOpen(es) && Run(es).conn.peerOnline == DesktopOnline(es)
  {
    LoopNeverStallsNorDoubles(es);
    RunKeepsReqs(es);
    if es != [] {
      RunFollows(es[..|es| - 1]);
      StepFollows(Run(es[..|es| - 1]), es[|es| - 1]);
    }
  }

  // ------------------------------------------------------------------ the results

  /** A page's request is sent exactly if a socket is installed and open and the desktop
      counts as online; otherwise it changes nothing. */
  lemma AskSendsIffOnline(es: seq<Event>, now: nat, random: string)
    ensures var s, s' := Run(es), Step(Run(es), Ask(now, random));
            && (s.conn.socket.Some? && LinkOpen(es) && DesktopOnline(es) ==> OneMore(s.reqs, s'.reqs, Page) && s' == s.(reqs := s'.reqs))
            && (!(s.conn.socket.Some? && LinkOpen(es) && DesktopOnline(es)) ==> s' == s)
  {
    RunFollows(es);
    IssueIsOneMore(Run(es).reqs, Page, now, random);
  }

  /** The desktop is online, and the client asks for its identity if it holds a credential,
      for the pairing if it only holds a token, each unless that request waits already. */
  ghost predicate AsksInTurn(s: State, s': State)
    requires s.conn.config.Some?
  {
    var config := s.conn.config.value;
    && s'.conn.peerOnline && s'.inbox == s.inbox
    && (config.credential != "" && !Waits(s.reqs, Identify) ==> OneMore(s.reqs, s'.reqs, Identify))
    && (config.credential == "" && config.pairingToken != "" && !Waits(s.reqs, Pair) ==> OneMore(s.reqs, s'.reqs, Pair))
    && (config.credential == "" && config.pairingToken == "" ==> s'.reqs == s.reqs)
    && (s'.reqs == s.reqs || OneMore(s.reqs, s'.reqs, if config.credential != "" then Identify else Pair))
  }

  lemma MarkAsks(s: State, now: nat, random: string)
    requires ReqsOk(s.reqs) && FlagsOk(s.conn, s.reqs) && s.conn.config.Some? && s.conn.socket.Some? && s.conn.socketOpen
    ensures AsksInTurn(s, MarkPeerOnline(s, now, random))
  {
    IssueIsOneMore(s.reqs, if s.conn.config.value.credential != "" then Identify else Pair, now, random);
  }

  /** What an online notice over an open socket makes the client ask for. */
  lemma NoticeAsks(es: seq<Event>, e: Event)
    requires OnlineNotice(Run(es), e) && Run(es).conn.config.Some? && Run(es).conn.socket.Some? && LinkOpen(es)
    ensures AsksInTurn(Run(es), Step(Run(es), e))
  {
    RunFollows(es);
    NoticeOf(Run(es), e);
  }

  lemma NoticeOf(s: State, e: Event)
    requires OnlineNotice(s, e) && Sound(s) && s.conn.config.Some? && s.conn.socket.Some? && s.conn.socketOpen
    ensures AsksInTurn(s, Step(s, e))
  {
    if e.message.PeerOnline? {
      MarkAsks(s, e.now, e.random);
    } else {
      MarkAsks(s.(conn := s.conn.(retryIndex := 0)), e.now, e.random);
    }
  }

  /** No online notice comes in `later`. */
  predicate NoNotice(es: seq<Event>, later: seq<Event>) {
    later == [] || (NoNotice(es, later[..|later| - 1]) && !OnlineNotice(Run(es + later[..|later| - 1]), later[|later| - 1]))
  }

  lemma OfflineMessageIssuesNone(s: State, e: Event)
    requires e.Receives? && CanHappen(s, e) && !s.conn.peerOnline && !OnlineNotice(s, e)
    ensures Step(s, e).reqs.issued == s.reqs.issued
  {
  }

  lemma OfflineIssuesNone(s: State, e: Event)
    requires !s.conn.peerOnline && !OnlineNotice(s, e)
    ensures Step(s, e).reqs.issued == s.reqs.issued
  {
    if CanHappen(s, e) {
      if e.Receives? { OfflineMessageIssuesNone(s, e); }
      else if !e.Ask? && !e.ExpiryFires? && !e.SendFails? { OthersRejectOrKeep(s, e); }
    }
  }

  lemma {:induction false} OfflineRun(es: seq<Event>, later: seq<Event>)
    requires !Run(es).conn.peerOnline && NoNotice(es, later)
    ensures Run(es + later).reqs.issued == Run(es).reqs.issued && !Run(es + later).conn.peerOnline
  {
    if later == [] {
      assert es + later == es;
    } else {
      var before, e := es + later[..|later| - 1], later[|later| - 1];
      OfflineRun(es, later[..|later| - 1]);
      assert (es + later)[..|es + later| - 1] == before && (es + later)[|es + later| - 1] == e;
      RunFollows(before);
      OfflineStep(Run(before), e);
    }
  }

  lemma OfflineStep(s: State, e: Event)
    requires Sound(s) && !s.conn.peerOnline && !OnlineNotice(s, e)
    ensures Step(s, e).reqs.issued == s.reqs.issued && !Step(s, e).conn.peerOnline
  {
    StepFollows(s, e);
    OfflineIssuesNone(s, e);
  }

  /** While the desktop counts as offline, as after an offline notice, and until the next
      online notice, no request of any kind is issued. */
  lemma OfflineIssuesNothing(es: seq<Event>, later: seq<Event>)
    requires !DesktopOnline(es) && NoNotice(es, later)
    ensures Run(es + later).reqs.issued == Run(es).reqs.issued && !DesktopOnline(es + later)
  {
    RunFollows(es);
    RunFollows(es + later);
    OfflineRun(es, later);
  }

  lemma OfflineNoticeCounts(es: seq<Event>, e: Event)
    requires OfflineNotice(Run(es), e)
    ensures !DesktopOnline(es + [e])
  {
    assert (es + [e])[..|es + [e]| - 1] == es;
  }
}
