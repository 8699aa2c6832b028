/** The tunnel relay (relay/src/relay.js): one tunnel per id, joining at most one
    desktop with any number of mobiles. Handlers run one at a time; each socket goes
    Open -> Closing -> Closed on its own schedule.

    `State` is what the handlers read and write, together with two records of what
    left the server: `told`, the last presence notice put on each socket, and
    `history`, the business frames forwarded and the departures handled. */
module Relay {
  import opened Wrappers

  type ConnId = nat
  type TunnelId = string
  type ReqId = string
  type Hash = string

  datatype Phase = Open | Closing | Closed
  datatype Role = Desktop | Mobile

  /** What the message and close handlers of an accepted socket capture. */
  datatype Hello = Hello(role: Role, tunnelId: TunnelId, hash: Hash)

  datatype Socket = Socket(phase: Phase, greeted: bool, joined: Option<Hello>, alive: bool)

  datatype Tunnel = Tunnel(hash: Hash, desktop: Option<ConnId>, mobiles: set<ConnId>, routes: map<ReqId, ConnId>)
  {
    predicate Empty() { desktop.None? && mobiles == {} }

    predicate Has(role: Role, c: ConnId) { if role.Desktop? then desktop == Some(c) else c in mobiles }

    /** Without the member `c`: routes go with the desktop, or with the mobile that asked. */
    function Leave(role: Role, c: ConnId): Tunnel {
      if role.Desktop? then this.(desktop := None, routes := map[])
      else this.(mobiles := mobiles - {c}, routes := map r | r in routes && routes[r] != c :: routes[r])
    }
  }

  /** A text frame as far as the relay looks into it. */
  datatype Frame = Request(id: ReqId) | Response(id: ReqId) | Opaque(text: string)
  datatype Payload = Binary | Text(frame: Frame)

  datatype Act =
    | Forwarded(tunnel: TunnelId, from: ConnId, desktop: ConnId, frame: Frame)
    | Answered(tunnel: TunnelId, id: ReqId, from: ConnId, to: set<ConnId>)
    | Broadcast(tunnel: TunnelId, from: ConnId, to: set<ConnId>, frame: Frame)
    | DesktopLeft(tunnel: TunnelId)
    | MobileLeft(tunnel: TunnelId, mobile: ConnId, threw: bool)

  datatype State = State(
    tunnels: map<TunnelId, Tunnel>,
    sockets: map<ConnId, Socket>,
    told: map<ConnId, bool>,
    history: seq<Act>)
  {
    predicate IsOpen(c: ConnId) { c in sockets && sockets[c].phase.Open? }

    function OpenAmong(cs: set<ConnId>): set<ConnId> { set c | c in cs && IsOpen(c) }

    /** `sendJson` of a presence notice: nothing is sent unless the socket is open. */
    function Tell(c: ConnId, online: bool): State {
      if IsOpen(c) then this.(told := told[c := online]) else this
    }

    function TellAll(cs: set<ConnId>, online: bool): State {
      this.(told := told + map c | c in OpenAmong(cs) :: online)
    }

    /** `socket.close(..)`: starts the closing handshake of an open socket. */
    function Close(c: ConnId): State {
      CloseAll({c})
    }

    function CloseAll(cs: set<ConnId>): State {
      this.(sockets := map c | c in sockets ::
        if c in cs && sockets[c].phase.Open? then sockets[c].(phase := Closing) else sockets[c])
    }

    function Log(a: Act): State { this.(history := history + [a]) }

    function Put(t: TunnelId, tunnel: Tunnel): State { this.(tunnels := tunnels[t := tunnel]) }

    function DesktopOpen(t: TunnelId): bool {
      t in tunnels && tunnels[t].desktop.Some? && IsOpen(tunnels[t].desktop.value)
    }
  }

  const INIT := State(map[], map[], map[], [])

  /** Events the environment can produce. `slow` is the set of sockets whose buffered
      amount exceeds the limit when the handler looks. */
  datatype Event =
    | Connect(c: ConnId)
    | HandshakeTimeout(c: ConnId)
    | First(c: ConnId, hello: Option<Hello>)
    | Message(c: ConnId, payload: Payload, slow: set<ConnId>)
    | Pong(c: ConnId)
    | Heartbeat
    | Closes(c: ConnId)
    | CloseEvent(c: ConnId)

  predicate CanHappen(s: State, e: Event) {
    match e
    case Connect(c) => c !in s.sockets
    case HandshakeTimeout(c) => c in s.sockets && !s.sockets[c].greeted
    case First(c, _) => c in s.sockets && !s.sockets[c].greeted && !s.sockets[c].phase.Closed?
    case Message(c, _, _) => c in s.sockets && s.sockets[c].joined.Some? && !s.sockets[c].phase.Closed?
    case Pong(c) => c in s.sockets && !s.sockets[c].phase.Closed?
    case Heartbeat => true
    case Closes(c) => c in s.sockets
    case CloseEvent(c) => c in s.sockets && !s.sockets[c].phase.Closed?
  }

  function OnConnect(s: State, c: ConnId): State {
    s.(sockets := s.sockets[c := Socket(Open, false, None, true)])
  }

  /** First message: `None` is anything that is not a well-formed hello. */
  function OnFirst(s: State, c: ConnId, hello: Option<Hello>): State
    requires CanHappen(s, First(c, hello))
  {
    var s0 := s.(sockets := s.sockets[c := s.sockets[c].(greeted := true)]);
    if hello.None? || (hello.value.tunnelId in s.tunnels && s.tunnels[hello.value.tunnelId].hash != hello.value.hash) then
      s0.Close(c)
    else
      Join(s0, c, hello.value)
  }

  function TunnelOrNew(tunnels: map<TunnelId, Tunnel>, h: Hello): Tunnel
  {
    if h.tunnelId in tunnels then tunnels[h.tunnelId] else Tunnel(h.hash, None, {}, map[])
  }

  function Join(s: State, c: ConnId, h: Hello): State
    requires c in s.sockets
  {
    Announce(Admit(Displace(s, h), c, h), c, h)
  }

  /** A new desktop closes the one it replaces. */
  function Displace(s: State, h: Hello): State {
    var tunnel := TunnelOrNew(s.tunnels, h);
    if h.role.Desktop? && tunnel.desktop.Some? then s.Close(tunnel.desktop.value) else s
  }

  function Admit(s: State, c: ConnId, h: Hello): State
    requires c in s.sockets
  {
    var tunnel := TunnelOrNew(s.tunnels, h);
    var tunnel' := if h.role.Desktop? then tunnel.(desktop := Some(c)) else tunnel.(mobiles := tunnel.mobiles + {c});
    s.(sockets := s.sockets[c := s.sockets[c].(joined := Some(h))]).Put(h.tunnelId, tunnel')
  }

  /** `tunnel.ready` to the newcomer and, if its peer side is online, `tunnel.peer_online` to that side. */
  function Announce(s: State, c: ConnId, h: Hello): (s': State)
    requires h.tunnelId in s.tunnels
    ensures s' == s.(told := s'.told)
  {
    var tunnel := s.tunnels[h.tunnelId];
    if h.role.Desktop? then
      if s.OpenAmong(tunnel.mobiles) == {} then s.Tell(c, false)
      else s.Tell(c, true).TellAll(tunnel.mobiles, true)
    else
      if !s.DesktopOpen(h.tunnelId) then s.Tell(c, false)
      else s.Tell(c, true).Tell(tunnel.desktop.value, true)
  }

  function OnMessage(s: State, c: ConnId, payload: Payload, slow: set<ConnId>): State
    requires CanHappen(s, Message(c, payload, slow))
  {
    var h := s.sockets[c].joined.value;
    var s0 := s.(sockets := s.sockets[c := s.sockets[c].(alive := true)]);
    if h.tunnelId !in s.tunnels || payload.Binary? then s0
    else if h.role.Mobile? then FromMobile(s0, h.tunnelId, c, payload.frame, slow)
    else FromDesktop(s0, h.tunnelId, c, payload.frame, slow)
  }

  function FromMobile(s: State, t: TunnelId, c: ConnId, frame: Frame, slow: set<ConnId>): State
    requires t in s.tunnels
  {
    var tunnel := s.tunnels[t];
    if !s.DesktopOpen(t) then s.Tell(c, false)
    else if tunnel.desktop.value in slow then s.Close(tunnel.desktop.value).Tell(c, false)
    else
      var routes := if frame.Request? then tunnel.routes[frame.id := c] else tunnel.routes;
      s.Put(t, tunnel.(routes := routes)).Log(Forwarded(t, c, tunnel.desktop.value, frame))
  }

  /** The open mobile a response with this id goes to, if there is one. */
  function Requester(s: State, t: TunnelId, id: ReqId): set<ConnId>
    requires t in s.tunnels
  {
    var tunnel := s.tunnels[t];
    if id in tunnel.routes && tunnel.routes[id] in tunnel.mobiles then s.OpenAmong({tunnel.routes[id]}) else {}
  }

  function FromDesktop(s: State, t: TunnelId, c: ConnId, frame: Frame, slow: set<ConnId>): State
    requires t in s.tunnels
  {
    var tunnel := s.tunnels[t];
    var targets := if frame.Response? then Requester(s, t, frame.id) else s.OpenAmong(tunnel.mobiles);
    var s1 := if frame.Response? then s.Put(t, tunnel.(routes := tunnel.routes - {frame.id})) else s;
    var s2 := if tunnel.mobiles == {} then s1.Tell(c, false) else s1.CloseAll(targets * slow);
    s2.Log(if frame.Response? then Answered(t, frame.id, c, targets - slow) else Broadcast(t, c, targets - slow, frame))
  }

  function OnHeartbeat(s: State): State {
    s.(sockets := map c | c in s.sockets ::
      if s.sockets[c].phase.Closed? then s.sockets[c]
      else if s.sockets[c].alive then s.sockets[c].(alive := false)
      else if s.sockets[c].phase.Open? then s.sockets[c].(phase := Closing)
      else s.sockets[c])
  }

  /** The close handler. A socket that is no longer its tunnel's member (a replaced
      desktop, say) changes nothing but its own phase. */
  function OnClose(s: State, c: ConnId): State
    requires CanHappen(s, CloseEvent(c))
  {
    if !IsMember(s, c) then MarkClosed(s, c)
    else
      var h := s.sockets[c].joined.value;
      Farewell(Vacated(s, c), s.tunnels[h.tunnelId], h, c)
  }

  /** The last mobile leaves and there is no desktop: the handler tells the desktop all the
      same, and throws on the missing socket before it gets to deleting the tunnel. */
  predicate Throws(tunnel: Tunnel, role: Role, c: ConnId) {
    role.Mobile? && tunnel.mobiles == {c} && tunnel.desktop.None?
  }

  function MarkClosed(s: State, c: ConnId): State
    requires c in s.sockets
  {
    s.(sockets := s.sockets[c := s.sockets[c].(phase := Closed, greeted := true)])
  }

  predicate IsMember(s: State, c: ConnId)
    requires c in s.sockets
  {
    && s.sockets[c].joined.Some?
    && s.sockets[c].joined.value.tunnelId in s.tunnels
    && s.tunnels[s.sockets[c].joined.value.tunnelId].Has(s.sockets[c].joined.value.role, c)
  }

  /** Unless the handler threw, a tunnel that has become empty is deleted. */
  function StoreOrDrop(s: State, t: TunnelId, tunnel: Tunnel, threw: bool): State {
    if tunnel.Empty() && !threw then s.(tunnels := s.tunnels - {t}) else s.Put(t, tunnel)
  }

  /** The tunnels and sockets after a member's close event. */
  function Vacated(s: State, c: ConnId): State
    requires c in s.sockets && IsMember(s, c)
  {
    var h := s.sockets[c].joined.value;
    var tunnel := s.tunnels[h.tunnelId];
    StoreOrDrop(MarkClosed(s, c), h.tunnelId, tunnel.Leave(h.role, c), Throws(tunnel, h.role, c))
  }

  /** The notices sent when a member leaves `tunnel`, and the record of the departure. */
  function Farewell(s: State, tunnel: Tunnel, h: Hello, c: ConnId): (s': State)
    ensures s' == s.(told := s'.told, history := s'.history)
  {
    if h.role.Desktop? then s.Log(DesktopLeft(h.tunnelId)).TellAll(tunnel.mobiles, false)
    else
      var s1 := s.Log(MobileLeft(h.tunnelId, c, Throws(tunnel, h.role, c)));
      if tunnel.mobiles == {c} && tunnel.desktop.Some? then s1.Tell(tunnel.desktop.value, false) else s1
  }

  function Step(s: State, e: Event): State {
    if !CanHappen(s, e) then s else
    match e
    case Connect(c) => OnConnect(s, c)
    case HandshakeTimeout(c) => s.Close(c)
    case First(c, hello) => OnFirst(s, c, hello)
    case Message(c, payload, slow) => OnMessage(s, c, payload, slow)
    case Pong(c) => s.(sockets := s.sockets[c := s.sockets[c].(alive := true)])
    case Heartbeat => OnHeartbeat(s)
    case Closes(c) => s.Close(c)
    case CloseEvent(c) => OnClose(s, c)
  }

  function RunFrom(s: State, es: seq<Event>): State {
    if es == [] then s else Step(RunFrom(s, es[..|es| - 1]), es[|es| - 1])
  }

  /** The state after a whole run from an empty server. */
  function Run(es: seq<Event>): State { RunFrom(INIT, es) }
}
