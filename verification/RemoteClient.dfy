/** The mobile client (mobile/src/remote.ts): connection and reconnect loop, pending
    requests, and events held back until the device identity is known.

    Callbacks run one at a time; what a settled promise triggers runs before the next
    callback. The user's own callbacks do not call back into the client. */
module RemoteClient {
  import opened Wrappers
  import opened Numerals

  type SocketId = nat
  type TimerId = nat
  type RequestId = string
  type DeviceId = string

  /** Empty strings stand for absent values, which the client treats alike. */
  datatype Config = Config(credential: string, deviceId: DeviceId, pairingToken: string)

  /** An armed reconnect timer. */
  datatype Retry = Retry(generation: nat, delay: nat)

  datatype Conn = Conn(
    config: Option<Config>,
    socket: Option<SocketId>,
    socketOpen: bool,
    retryTimer: Option<TimerId>,
    retryIndex: nat,
    generation: nat,
    stopped: bool,
    peerOnline: bool,
    pairing: bool,
    identifying: bool,
    retries: map<TimerId, Retry>,
    sockets: seq<nat>,
    nextTimer: TimerId)
  {
    predicate CanSend() { config.Some? && socket.Some? && socketOpen && peerOnline }
  }

  datatype Purpose = Page | Identify | Pair
  datatype Pending = Pending(timer: TimerId, purpose: Purpose)

  /** `expiries` are the armed request timers, `issued` maps every id ever used to its
      sequence number, `settled` counts how often each has been resolved or rejected. */
  datatype Requests = Requests(
    sequence: nat,
    pending: map<RequestId, Pending>,
    expiries: map<TimerId, RequestId>,
    nextTimer: TimerId,
    issued: map<RequestId, nat>,
    settled: multiset<RequestId>)

  datatype RemoteEvent = RemoteEvent(target: DeviceId, body: string)
  datatype Delivery = Delivery(event: RemoteEvent, identity: DeviceId)

  /** Since the last connect: `arrived` and `delivered` are the events received and handed
      on, `identities` the device ids adopted, `heldUntil` how many events had arrived when
      the first of them was. */
  datatype Inbox = Inbox(
    deviceId: DeviceId,
    deferred: seq<RemoteEvent>,
    arrived: seq<RemoteEvent>,
    delivered: seq<Delivery>,
    identities: seq<DeviceId>,
    heldUntil: nat)

  datatype State = State(conn: Conn, reqs: Requests, inbox: Inbox)

  const MAX_DEFERRED := 1000
  const RETRY_DELAYS: seq<nat> := [1000, 2000, 5000, 10000, 30000]

  const INIT := State(
    Conn(None, None, false, None, 0, 0, true, false, false, false, map[], [], 0),
    Requests(0, map[], map[], 0, map[], multiset{}),
    Inbox("", [], [], [], [], 0))

  datatype Message =
    | TunnelReady(peerOnline: bool)
    | PeerOnline
    | PeerOffline
    | Response(id: RequestId, ok: bool, deviceId: DeviceId, credential: string)
    | EventMessage(event: RemoteEvent)
    | OtherMessage

  /** `opens` says whether creating the socket succeeds; `now` and `random` feed the id of
      the request a callback may issue. */
  datatype Event =
    | Connect(config: Config, opens: bool)
    | Disconnect
    | Suspend
    | Resume(opens: bool)
    | Ask(now: nat, random: string)
    | RetryFires(timer: TimerId, opens: bool)
    | ExpiryFires(timer: TimerId)
    | SendFails(id: RequestId)
    | Opened(socket: SocketId)
    | Receives(socket: SocketId, message: Message, now: nat, random: string)
    | Closed(socket: SocketId)
    | Errored(socket: SocketId)

  predicate CanHappen(s: State, e: Event) {
    match e
    case RetryFires(t, _) => t in s.conn.retries
    case ExpiryFires(t) => t in s.reqs.expiries
    case Opened(k) => k < |s.conn.sockets|
    case Receives(k, _, _, _) => k < |s.conn.sockets|
    case Closed(k) => k < |s.conn.sockets|
    case Errored(k) => k < |s.conn.sockets|
    case _ => true
  }

  // --------------------------------------------------------------- connection

  function ClearRetry(c: Conn): Conn {
    if c.retryTimer.Some? then c.(retries := c.retries - {c.retryTimer.value}, retryTimer := None) else c
  }

  /** `scheduleReconnect` */
  function Schedule(c: Conn, generation: nat): Conn {
    if c.stopped || generation != c.generation then c
    else
      var c1 := ClearRetry(c);
      var last := |RETRY_DELAYS| - 1;
      var index := if c.retryIndex < last then c.retryIndex else last;
      c1.(retries := c1.retries[c1.nextTimer := Retry(generation, RETRY_DELAYS[index])],
          retryTimer := Some(c1.nextTimer), nextTimer := c1.nextTimer + 1,
          retryIndex := if c.retryIndex + 1 < last then c.retryIndex + 1 else last)
  }

  /** `open`: a stale or stopped attempt does nothing; a failed one schedules the next. */
  function Open(c: Conn, generation: nat, opens: bool): Conn {
    if c.stopped || c.config.None? || generation != c.generation then c
    else
      var c1 := c.(retryTimer := None);
      if opens then c1.(socket := Some(|c.sockets|), sockets := c.sockets + [generation]) else Schedule(c1, generation)
  }

  /** What `disconnect` and `suspend` have in common. */
  function Stop(c: Conn): Conn {
    ClearRetry(c).(stopped := true, generation := c.generation + 1, socket := None, socketOpen := false,
                   peerOnline := false, pairing := false, identifying := false)
  }

  function Restart(c: Conn, config: Config, opens: bool): Conn {
    Open(c.(config := Some(config), stopped := false, retryIndex := 0, generation := c.generation + 1), c.generation + 1, opens)
  }

  predicate Current(c: Conn, k: SocketId)
    requires k < |c.sockets|
  {
    c.sockets[k] == c.generation
  }

  /** The installed socket is gone; reconnect unless stopped. `pairing` survives a close
      only if no pairing request was waiting. */
  function LoseSocket(c: Conn, pairing: bool): Conn {
    Schedule(c.(socket := None, socketOpen := false, peerOnline := false, pairing := pairing, identifying := false), c.generation)
  }

  // ----------------------------------------------------------------- requests

  function MakeId(now: nat, sequence: nat, random: string): RequestId {
    Numeral(now, 36) + "-" + Numeral(sequence, 36) + "-" + random
  }

  function Issue(r: Requests, purpose: Purpose, now: nat, random: string): Requests {
    Add(r, MakeId(now, r.sequence + 1, random), purpose)
  }

  /** Puts a request under `id` with a fresh timer. */
  function Add(r: Requests, id: RequestId, purpose: Purpose): Requests {
    r.(sequence := r.sequence + 1, pending := r.pending[id := Pending(r.nextTimer, purpose)],
       expiries := r.expiries[r.nextTimer := id], nextTimer := r.nextTimer + 1, issued := r.issued[id := r.sequence + 1])
  }

  /** A response, a failed send or an expiry settles a pending request and disarms its timer. */
  function Settle(r: Requests, id: RequestId): Requests
    requires id in r.pending
  {
    r.(pending := r.pending - {id}, expiries := r.expiries - {r.pending[id].timer}, settled := r.settled + multiset{id})
  }

  /** `rejectPending` */
  function RejectAll(r: Requests): Requests {
    r.(pending := map[], expiries := map t | t in r.expiries && r.expiries[t] !in r.pending :: r.expiries[t],
       settled := r.settled + multiset(r.pending.Keys))
  }

  // ------------------------------------------------------------------- events

  predicate Targeted(e: RemoteEvent) { e.target != "" }

  /** The events of `es` that `identity` may see, as handed to the page, in order. */
  function Handed(es: seq<RemoteEvent>, identity: DeviceId): seq<Delivery> {
    if es == [] then []
    else
      var before, e := Handed(es[..|es| - 1], identity), es[|es| - 1];
      if Targeted(e) && e.target != identity then before else before + [Delivery(e, identity)]
  }

  function Deliver(i: Inbox, es: seq<RemoteEvent>): Inbox {
    i.(delivered := i.delivered + Handed(es, i.deviceId))
  }

  function Newest(events: seq<RemoteEvent>): seq<RemoteEvent> {
    if |events| > MAX_DEFERRED then events[|events| - MAX_DEFERRED..] else events
  }

  function Arrive(i: Inbox, e: RemoteEvent): Inbox {
    var i1 := i.(arrived := i.arrived + [e]);
    if Targeted(e) && i.deviceId == "" then i1.(deferred := Newest(i.deferred + [e])) else Deliver(i1, [e])
  }

  /** Adopts a confirmed device id; an empty one changes nothing. */
  function Adopt(i: Inbox, deviceId: DeviceId): Inbox {
    if deviceId == "" || deviceId == i.deviceId then i
    else i.(deviceId := deviceId, identities := i.identities + [deviceId],
            heldUntil := if i.identities == [] then |i.arrived| else i.heldUntil)
  }

  /** `flushDeferredEvents` */
  function Flush(i: Inbox): Inbox {
    if i.deviceId == "" || i.deferred == [] then i else Deliver(i.(deferred := []), i.deferred)
  }

  function NewInbox(deviceId: DeviceId): Inbox {
    Inbox(deviceId, [], [], [], if deviceId == "" then [] else [deviceId], 0)
  }

  // -------------------------------------------------------------------- steps

  /** Nothing the reconnect loop depends on has changed, but perhaps the backoff is reset. */
  predicate SameLoop(c: Conn, c': Conn) {
    && c'.stopped == c.stopped && c'.socket == c.socket && c'.retryTimer == c.retryTimer && c'.retries == c.retries
    && c'.sockets == c.sockets && c'.generation == c.generation && c'.nextTimer == c.nextTimer && c'.config.Some? == c.config.Some?
    && (c'.retryIndex == c.retryIndex || c'.retryIndex == 0)
  }

  /** What a rejected request does next. */
  function Refused(c: Conn, purpose: Purpose): (c': Conn)
    ensures SameLoop(c, c')
  {
    match purpose
    case Page => c
    case Identify => c.(peerOnline := false, identifying := false)
    case Pair => c.(peerOnline := false, pairing := false)
  }

  /** `request`: refused outright unless connected to an online desktop. */
  function Request(s: State, purpose: Purpose, now: nat, random: string): (s': State)
    ensures SameLoop(s.conn, s'.conn)
  {
    if s.conn.CanSend() then s.(reqs := Issue(s.reqs, purpose, now, random)) else s.(conn := Refused(s.conn, purpose))
  }

  function MarkPeerOnline(s: State, now: nat, random: string): (s': State)
    ensures SameLoop(s.conn, s'.conn)
  {
    var c := s.conn.(peerOnline := true);
    if c.config.None? then s.(conn := c)
    else if c.config.value.credential != "" then
      if c.identifying then s.(conn := c) else Request(s.(conn := c.(identifying := true)), Identify, now, random)
    else if c.pairing || c.config.value.pairingToken == "" then s.(conn := c)
    else Request(s.(conn := c.(pairing := true)), Pair, now, random)
  }

  /** The identity request came back: adopt the device id and release held events. */
  function Identified(s: State, deviceId: DeviceId): (s': State)
    ensures SameLoop(s.conn, s'.conn)
  {
    var confirmed := if deviceId != "" then deviceId else s.inbox.deviceId;
    if confirmed == "" || s.conn.config.None? then s.(conn := Refused(s.conn, Identify))
    else State(s.conn.(config := Some(s.conn.config.value.(deviceId := confirmed)), identifying := false),
               s.reqs, Flush(Adopt(s.inbox, confirmed)))
  }

  function Paired(s: State, deviceId: DeviceId, credential: string): (s': State)
    ensures SameLoop(s.conn, s'.conn)
  {
    if s.conn.config.None? then s.(conn := s.conn.(pairing := false))
    else
      var inbox := Adopt(s.inbox, deviceId);
      State(s.conn.(config := Some(Config(credential, inbox.deviceId, "")), pairing := false), s.reqs, Flush(inbox))
  }

  function OnResponse(s: State, id: RequestId, ok: bool, deviceId: DeviceId, credential: string): (s': State)
    ensures SameLoop(s.conn, s'.conn)
  {
    if id !in s.reqs.pending then s
    else
      var purpose := s.reqs.pending[id].purpose;
      var s1 := s.(reqs := Settle(s.reqs, id));
      if !ok then s1.(conn := Refused(s1.conn, purpose))
      else match purpose
        case Page => s1
        case Identify => Identified(s1, deviceId)
        case Pair => Paired(s1, deviceId, credential)
  }

  /** A pending request fails: its send failed or it took too long. */
  function Fail(s: State, id: RequestId): (s': State)
    ensures SameLoop(s.conn, s'.conn)
  {
    if id !in s.reqs.pending then s else State(Refused(s.conn, s.reqs.pending[id].purpose), Settle(s.reqs, id), s.inbox)
  }

  function OnMessage(s: State, message: Message, now: nat, random: string): (s': State)
    ensures SameLoop(s.conn, s'.conn)
  {
    match message
    case TunnelReady(peerOnline) =>
      var s1 := s.(conn := s.conn.(retryIndex := 0));
      if peerOnline then MarkPeerOnline(s1, now, random) else s1
    case PeerOnline => MarkPeerOnline(s, now, random)
    case PeerOffline => s.(conn := s.conn.(peerOnline := false, pairing := false, identifying := false))
    case Response(id, ok, deviceId, credential) => OnResponse(s, id, ok, deviceId, credential)
    case EventMessage(e) => s.(inbox := Arrive(s.inbox, e))
    case OtherMessage => s
  }

  predicate PairWaiting(r: Requests) { exists id <- r.pending :: r.pending[id].purpose.Pair? }

  function Step(s: State, e: Event): State {
    if !CanHappen(s, e) then s else
    var rejected := RejectAll(s.reqs);
    match e
    case Connect(config, opens) =>
      State(Restart(Stop(s.conn), config, opens), rejected, NewInbox(config.deviceId))
    case Disconnect => State(Stop(s.conn).(config := None), rejected, NewInbox(""))
    case Suspend => if s.conn.stopped || s.conn.config.None? then s else State(Stop(s.conn), rejected, s.inbox)
    case Resume(opens) =>
      if !s.conn.stopped || s.conn.config.None? then s else s.(conn := Restart(s.conn, s.conn.config.value, opens))
    case Ask(now, random) => Request(s, Page, now, random)
    case RetryFires(t, opens) =>
      s.(conn := Open(s.conn.(retries := s.conn.retries - {t}), s.conn.retries[t].generation, opens))
    case ExpiryFires(t) => Fail(s, s.reqs.expiries[t])
    case SendFails(id) => Fail(s, id)
    case Opened(k) =>
      if s.conn.config.None? || !Current(s.conn, k) then s else s.(conn := s.conn.(socketOpen := true))
    case Receives(k, message, now, random) => if Current(s.conn, k) then OnMessage(s, message, now, random) else s
    case Closed(k) =>
      if Current(s.conn, k) && s.conn.socket == Some(k) then
        State(LoseSocket(s.conn, s.conn.pairing && !PairWaiting(s.reqs)), rejected, s.inbox)
      else s
    case Errored(k) =>
      if Current(s.conn, k) && s.conn.socket == Some(k) then State(LoseSocket(s.conn, false), rejected, s.inbox) else s
  }

  function RunFrom(s: State, es: seq<Event>): State {
    if es == [] then s else Step(RunFrom(s, es[..|es| - 1]), es[|es| - 1])
  }

  function Run(es: seq<Event>): State { RunFrom(INIT, es) }
}
