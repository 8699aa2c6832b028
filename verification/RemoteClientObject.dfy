/** The mobile client as the object it is: methods and callbacks updating its fields, here
    in three groups (connection, requests, events). Each public method and callback takes
    exactly the step of the protocol model. */
module RemoteClientObject {
  import opened Wrappers
  import opened RemoteClient
  import opened RemoteRequests

  /** `rejectPending` after the requests in `done`. */
  function RejectedSome(r: Requests, done: set<RequestId>): Requests {
    r.(expiries := map t | t in r.expiries && r.expiries[t] !in done :: r.expiries[t], settled := r.settled + multiset(done))
  }

  lemma RejectedNone(r: Requests)
    ensures RejectedSome(r, {}) == r
  {
    assert RejectedSome(r, {}).expiries == r.expiries;
  }

  lemma RejectedEvery(r: Requests, done: set<RequestId>)
    requires TimersOk(r) && done <= r.pending.Keys && r.pending.Keys - done == {}
    ensures RejectedSome(r, done).(pending := map[]) == RejectAll(r)
  {
    forall id | id in r.pending.Keys ensures id in done {
      assert id !in r.pending.Keys - done;
    }
    assert done == r.pending.Keys;
  }

  lemma RejectOneMore(r: Requests, done: set<RequestId>, id: RequestId)
    requires TimersOk(r) && id in r.pending && id !in done
    ensures var some := RejectedSome(r, done);
            RejectedSome(r, done + {id}) == some.(expiries := some.expiries - {r.pending[id].timer}, settled := some.settled + multiset{id})
  {
    var all := RejectedSome(r, done + {id});
    assert multiset(done + {id}) == multiset(done) + multiset{id};
    assert all.expiries == RejectedSome(r, done).expiries - {r.pending[id].timer};
  }

  class Client {
    var conn: Conn
    var reqs: Requests
    var inbox: Inbox

    ghost function Now(): State
      reads this
    {
      State(conn, reqs, inbox)
    }

    constructor ()
      ensures Now() == INIT
    {
      conn, reqs, inbox := INIT.conn, INIT.reqs, INIT.inbox;
    }

    // ------------------------------------------------------ private methods

    method ScheduleReconnect(generation: nat)
      modifies this`conn
      ensures conn == Schedule(old(conn), generation)
    {
      if conn.stopped || generation != conn.generation {
        return;
      }
      if conn.retryTimer.Some? {
        conn := conn.(retries := conn.retries - {conn.retryTimer.value}, retryTimer := None);
      }
      var last := |RETRY_DELAYS| - 1;
      var delay := RETRY_DELAYS[if conn.retryIndex < last then conn.retryIndex else last];
      conn := conn.(retryIndex := if conn.retryIndex + 1 < last then conn.retryIndex + 1 else last);
      conn := conn.(retries := conn.retries[conn.nextTimer := Retry(generation, delay)],
                    retryTimer := Some(conn.nextTimer), nextTimer := conn.nextTimer + 1);
    }

    method OpenSocket(generation: nat, opens: bool)
      modifies this`conn
      ensures conn == Open(old(conn), generation, opens)
    {
      if conn.stopped || conn.config.None? || generation != conn.generation {
        return;
      }
      conn := conn.(retryTimer := None);
      if !opens {
        ScheduleReconnect(generation);
        return;
      }
      conn := conn.(socket := Some(|conn.sockets|), sockets := conn.sockets + [generation]);
    }

    /** Rejects one request: its timer is cleared and its promise settled. */
    method RejectRequest(id: RequestId)
      requires id in reqs.pending
      modifies this`reqs
      ensures reqs == old(reqs).(expiries := old(reqs).expiries - {old(reqs).pending[id].timer}, settled := old(reqs).settled + multiset{id})
    {
      reqs := reqs.(expiries := reqs.expiries - {reqs.pending[id].timer}, settled := reqs.settled + multiset{id});
    }

    /** Rejects every pending request and disarms its timer, one by one. */
    method RejectPending()
      requires TimersOk(reqs)
      modifies this`reqs
      ensures reqs == RejectAll(old(reqs))
    {
      ghost var before := reqs;
      ghost var done: set<RequestId> := {};
      var rest := reqs.pending.Keys;
      RejectedNone(before);
      while rest != {}
        invariant done <= before.pending.Keys && rest == before.pending.Keys - done
        invariant reqs == RejectedSome(before, done)
      {
        var id :| id in rest;
        RejectOneMore(before, done, id);
        RejectRequest(id);
        rest, done := rest - {id}, done + {id};
      }
      RejectedEvery(before, done);
      reqs := reqs.(pending := map[]);
    }

    /** What stops the client: no timer, no socket, no pending request, a new generation. */
    method Tear()
      requires TimersOk(reqs)
      modifies this`conn, this`reqs
      ensures conn == Stop(old(conn)) && reqs == RejectAll(old(reqs))
    {
      conn := conn.(stopped := true, generation := conn.generation + 1);
      if conn.retryTimer.Some? {
        conn := conn.(retries := conn.retries - {conn.retryTimer.value}, retryTimer := None);
      }
      conn := conn.(socket := None, socketOpen := false, peerOnline := false, pairing := false, identifying := false);
      RejectPending();
    }

    /** Hands the held events on, in order, to the device now known. */
    method FlushDeferredEvents()
      modifies this`inbox
      ensures inbox == Flush(old(inbox))
    {
      if inbox.deviceId == "" || inbox.deferred == [] {
        return;
      }
      var events := inbox.deferred;
      inbox := inbox.(deferred := []);
      ghost var before := inbox;
      var k := 0;
      while k < |events|
        invariant k <= |events|
        invariant inbox == Deliver(before, events[..k])
      {
        assert events[..k + 1][..k] == events[..k];
        HandOn(events[k]);
        k := k + 1;
      }
      assert events[..k] == events;
    }

    method HandOn(e: RemoteEvent)
      modifies this`inbox
      ensures inbox == if Targeted(e) && e.target != old(inbox).deviceId then old(inbox)
                       else old(inbox).(delivered := old(inbox).delivered + [Delivery(e, old(inbox).deviceId)])
    {
      if e.target == "" || e.target == inbox.deviceId {
        inbox := inbox.(delivered := inbox.delivered + [Delivery(e, inbox.deviceId)]);
      }
    }

    method AdoptIdentity(confirmed: DeviceId)
      modifies this`inbox
      ensures inbox == Adopt(old(inbox), confirmed)
    {
      if confirmed != "" && confirmed != inbox.deviceId {
        if inbox.identities == [] {
          inbox := inbox.(heldUntil := |inbox.arrived|);
        }
        inbox := inbox.(deviceId := confirmed, identities := inbox.identities + [confirmed]);
      }
    }

    // ----------------------------------------------------------- lifecycle

    method DoDisconnect()
      requires TimersOk(reqs)
      modifies this
      ensures Now() == Step(old(Now()), Disconnect)
    {
      Tear();
      conn := conn.(config := None);
      inbox := Inbox("", [], [], [], [], 0);
    }

    method DoConnect(config: Config, opens: bool)
      requires TimersOk(reqs)
      modifies this
      ensures Now() == Step(old(Now()), Connect(config, opens))
    {
      DoDisconnect();
      inbox := Inbox(config.deviceId, [], [], [], if config.deviceId == "" then [] else [config.deviceId], 0);
      conn := conn.(config := Some(config), stopped := false, retryIndex := 0, generation := conn.generation + 1);
      OpenSocket(conn.generation, opens);
    }

    method DoSuspend()
      requires TimersOk(reqs)
      modifies this
      ensures Now() == Step(old(Now()), Suspend)
    {
      if conn.stopped || conn.config.None? {
        return;
      }
      Tear();
    }

    method DoResume(opens: bool)
      modifies this
      ensures Now() == Step(old(Now()), Resume(opens))
    {
      if !conn.stopped || conn.config.None? {
        return;
      }
      conn := conn.(stopped := false, retryIndex := 0, generation := conn.generation + 1);
      OpenSocket(conn.generation, opens);
    }

    // ------------------------------------------------------------- requests

    method SendRequest(purpose: Purpose, now: nat, random: string)
      modifies this
      ensures Now() == Request(old(Now()), purpose, now, random)
    {
      if conn.config.None? || conn.socket.None? || !conn.socketOpen || !conn.peerOnline {
        RejectedBy(purpose);
        return;
      }
      var id := MakeId(now, reqs.sequence + 1, random);
      reqs := reqs.(sequence := reqs.sequence + 1, issued := reqs.issued[id := reqs.sequence + 1]);
      reqs := reqs.(expiries := reqs.expiries[reqs.nextTimer := id], pending := reqs.pending[id := Pending(reqs.nextTimer, purpose)],
                    nextTimer := reqs.nextTimer + 1);
    }

    /** The rejection handlers of the identity and pairing requests. */
    method RejectedBy(purpose: Purpose)
      modifies this`conn
      ensures conn == Refused(old(conn), purpose)
    {
      if !purpose.Page? {
        conn := conn.(peerOnline := false);
      }
      if purpose.Identify? {
        conn := conn.(identifying := false);
      }
      if purpose.Pair? {
        conn := conn.(pairing := false);
      }
    }

    method DoRequest(now: nat, random: string)
      modifies this
      ensures Now() == Step(old(Now()), Ask(now, random))
    {
      SendRequest(Page, now, random);
    }

    method SettleRequest(id: RequestId)
      requires id in reqs.pending
      modifies this`reqs
      ensures reqs == Settle(old(reqs), id)
    {
      var timer := reqs.pending[id].timer;
      reqs := reqs.(pending := reqs.pending - {id});
      reqs := reqs.(expiries := reqs.expiries - {timer}, settled := reqs.settled + multiset{id});
    }

    method SendFailed(id: RequestId)
      modifies this
      ensures Now() == Step(old(Now()), SendFails(id))
    {
      if id in reqs.pending {
        var purpose := reqs.pending[id].purpose;
        SettleRequest(id);
        RejectedBy(purpose);
      }
    }

    /** The expiry callback deletes and rejects without looking: its request is still pending. */
    method RequestTimedOut(t: TimerId)
      requires TimersOk(reqs) && t in reqs.expiries
      modifies this
      ensures Now() == Step(old(Now()), ExpiryFires(t))
      ensures old(reqs).expiries[t] in old(reqs).pending && old(reqs).expiries[t] !in reqs.pending
    {
      var id := reqs.expiries[t];
      var purpose := reqs.pending[id].purpose;
      SettleRequest(id);
      RejectedBy(purpose);
    }

    // ------------------------------------------------------------ callbacks

    method RetryFired(t: TimerId, opens: bool)
      requires t in conn.retries
      modifies this
      ensures Now() == Step(old(Now()), RetryFires(t, opens))
    {
      var generation := conn.retries[t].generation;
      conn := conn.(retries := conn.retries - {t});
      OpenSocket(generation, opens);
    }

    method OnOpen(k: SocketId)
      requires k < |conn.sockets|
      modifies this
      ensures Now() == Step(old(Now()), Opened(k))
    {
      if conn.config.None? || conn.sockets[k] != conn.generation {
        return;
      }
      conn := conn.(socketOpen := true);
    }

    method OnClose(k: SocketId)
      requires TimersOk(reqs) && k < |conn.sockets|
      modifies this
      ensures Now() == Step(old(Now()), Closed(k))
    {
      if conn.sockets[k] != conn.generation || conn.socket != Some(k) {
        return;
      }
      conn := conn.(socket := None, socketOpen := false, peerOnline := false, identifying := false);
      // The rejection handler of a waiting pairing request clears its flag.
      if exists id <- reqs.pending :: reqs.pending[id].purpose.Pair? {
        conn := conn.(pairing := false);
      }
      RejectPending();
      if !conn.stopped {
        ScheduleReconnect(conn.sockets[k]);
      }
    }

    method OnError(k: SocketId)
      requires TimersOk(reqs) && k < |conn.sockets|
      modifies this
      ensures Now() == Step(old(Now()), Errored(k))
    {
      if conn.sockets[k] != conn.generation || conn.socket != Some(k) {
        return;
      }
      conn := conn.(socket := None, socketOpen := false, peerOnline := false, pairing := false, identifying := false);
      RejectPending();
      if !conn.stopped {
        ScheduleReconnect(conn.sockets[k]);
      }
    }

    method MarkOnline(now: nat, random: string)
      modifies this
      ensures Now() == MarkPeerOnline(old(Now()), now, random)
    {
      conn := conn.(peerOnline := true);
      if conn.config.None? {
        return;
      }
      if conn.config.value.credential != "" {
        if conn.identifying {
          return;
        }
        conn := conn.(identifying := true);
        SendRequest(Identify, now, random);
        return;
      }
      if conn.pairing || conn.config.value.pairingToken == "" {
        return;
      }
      conn := conn.(pairing := true);
      SendRequest(Pair, now, random);
    }

    method IdentifyResolved(deviceId: DeviceId)
      modifies this
      ensures Now() == Identified(old(Now()), deviceId)
    {
      var confirmed := if deviceId != "" then deviceId else inbox.deviceId;
      if confirmed == "" || conn.config.None? {
        RejectedBy(Identify);
        return;
      }
      AdoptIdentity(confirmed);
      conn := conn.(config := Some(conn.config.value.(deviceId := confirmed)));
      FlushDeferredEvents();
      conn := conn.(identifying := false);
    }

    method PairResolved(deviceId: DeviceId, credential: string)
      modifies this
      ensures Now() == Paired(old(Now()), deviceId, credential)
    {
      if conn.config.Some? {
        AdoptIdentity(deviceId);
        conn := conn.(config := Some(Config(credential, inbox.deviceId, "")));
        FlushDeferredEvents();
      }
      conn := conn.(pairing := false);
    }

    method ResponseArrived(id: RequestId, ok: bool, deviceId: DeviceId, credential: string)
      modifies this
      ensures Now() == OnResponse(old(Now()), id, ok, deviceId, credential)
    {
      if id !in reqs.pending {
        return;
      }
      var purpose := reqs.pending[id].purpose;
      SettleRequest(id);
      if !ok {
        RejectedBy(purpose);
      } else if purpose.Identify? {
        IdentifyResolved(deviceId);
      } else if purpose.Pair? {
        PairResolved(deviceId, credential);
      }
    }

    method EventArrived(e: RemoteEvent)
      modifies this`inbox
      ensures inbox == Arrive(old(inbox), e)
    {
      inbox := inbox.(arrived := inbox.arrived + [e]);
      if e.target != "" && inbox.deviceId == "" {
        inbox := inbox.(deferred := inbox.deferred + [e]);
        if |inbox.deferred| > MAX_DEFERRED {
          inbox := inbox.(deferred := inbox.deferred[|inbox.deferred| - MAX_DEFERRED..]);
        }
        return;
      }
      ghost var before := inbox;
      assert [e][..0] == [] && Handed([], before.deviceId) == [];
      HandOn(e);
    }

    method OnMessageReceived(k: SocketId, message: Message, now: nat, random: string)
      requires k < |conn.sockets|
      modifies this
      ensures Now() == Step(old(Now()), Receives(k, message, now, random))
    {
      if conn.sockets[k] != conn.generation {
        return;
      }
      match message
      case TunnelReady(online) =>
        conn := conn.(retryIndex := 0);
        if online {
          MarkOnline(now, random);
        }
      case PeerOnline => MarkOnline(now, random);
      case PeerOffline => conn := conn.(peerOnline := false, pairing := false, identifying := false);
      case Response(id, ok, deviceId, credential) => ResponseArrived(id, ok, deviceId, credential);
      case EventMessage(e) => EventArrived(e);
      case OtherMessage =>
    }
  }
}
