/** What becomes of each frame and each hello: who is handed it, who is told that the other
    side is away, and who is closed for it. */
module RelayDelivery {
  import opened Wrappers
  import opened Relay

  /** No socket but those of `cs` changes its phase, and those begin to close if open. */
  ghost predicate OnlyCloses(s: State, s': State, cs: set<ConnId>) {
    && s'.sockets.Keys == s.sockets.Keys
    && forall c <- s.sockets ::
         && s'.sockets[c].joined == s.sockets[c].joined
         && s'.sockets[c].phase == if c in cs && s.sockets[c].phase.Open? then Closing else s.sockets[c].phase
  }

  /** `c`, if it is open, is told whether the other side is there; nobody else is told anything. */
  ghost predicate OnlyTold(s: State, s': State, c: ConnId, online: bool) {
    s'.told == if s.IsOpen(c) then s.told[c := online] else s.told
  }

  predicate Sends(s: State, e: Event, role: Role) {
    && e.Message? && e.payload.Text? && CanHappen(s, e) && s.sockets[e.c].joined.value.role == role
    && s.sockets[e.c].joined.value.tunnelId in s.tunnels
  }

  /** The desktop of a tunnel is there to be sent to. */
  predicate DesktopPresent(s: State, t: TunnelId) {
    t in s.tunnels && s.tunnels[t].desktop.Some? && s.IsOpen(s.tunnels[t].desktop.value)
  }

  lemma MobileFrameForwarded(s: State, e: Event)
    requires Sends(s, e, Mobile) && DesktopPresent(s, s.sockets[e.c].joined.value.tunnelId)
    requires s.tunnels[s.sockets[e.c].joined.value.tunnelId].desktop.value !in e.slow
    ensures var s', t := Step(s, e), s.sockets[e.c].joined.value.tunnelId;
            s'.history == s.history + [Forwarded(t, e.c, s.tunnels[t].desktop.value, e.payload.frame)] && s'.told == s.told && OnlyCloses(s, s', {})
  {
  }

  lemma MobileFrameUnheard(s: State, e: Event)
    requires Sends(s, e, Mobile) && !DesktopPresent(s, s.sockets[e.c].joined.value.tunnelId)
    ensures var s' := Step(s, e); s'.history == s.history && OnlyCloses(s, s', {}) && OnlyTold(s, s', e.c, false)
  {
  }

  lemma MobileFrameClogged(s: State, e: Event)
    requires Sends(s, e, Mobile) && DesktopPresent(s, s.sockets[e.c].joined.value.tunnelId)
    requires s.tunnels[s.sockets[e.c].joined.value.tunnelId].desktop.value in e.slow
    ensures var s', desktop := Step(s, e), s.tunnels[s.sockets[e.c].joined.value.tunnelId].desktop.value;
            s'.history == s.history && OnlyCloses(s, s', {desktop}) && (desktop == e.c || OnlyTold(s, s', e.c, false))
  {
  }

  /** A mobile's frame is forwarded exactly if the desktop is open and keeps up; a desktop
      that does not is closed; and whenever the frame is not forwarded its sender is told
      that the desktop is away. */
  lemma MobileFrameFate(s: State, e: Event)
    requires Sends(s, e, Mobile)
    ensures var s', t := Step(s, e), s.sockets[e.c].joined.value.tunnelId; var desktop := s.tunnels[t].desktop;
            if DesktopPresent(s, t) && desktop.value !in e.slow then
              s'.history == s.history + [Forwarded(t, e.c, desktop.value, e.payload.frame)] && s'.told == s.told && OnlyCloses(s, s', {})
            else
              && s'.history == s.history && OnlyCloses(s, s', if DesktopPresent(s, t) then {desktop.value} else {})
              && ((DesktopPresent(s, t) && desktop == Some(e.c)) || OnlyTold(s, s', e.c, false))
  {
    var t := s.sockets[e.c].joined.value.tunnelId;
    if DesktopPresent(s, t) && s.tunnels[t].desktop.value !in e.slow { MobileFrameForwarded(s, e); }
    else if DesktopPresent(s, t) { MobileFrameClogged(s, e); }
    else { MobileFrameUnheard(s, e); }
  }

  /** Whom a desktop's frame is for: the one open mobile whose request it answers, or every
      open mobile of the tunnel. */
  function Audience(s: State, t: TunnelId, frame: Frame): set<ConnId>
    requires t in s.tunnels
  {
    var tunnel := s.tunnels[t];
    set m | m in tunnel.mobiles && s.IsOpen(m) && (frame.Response? ==> frame.id in tunnel.routes && tunnel.routes[frame.id] == m)
  }

  lemma AudienceIsTargets(s: State, t: TunnelId, frame: Frame)
    requires t in s.tunnels
    ensures Audience(s, t, frame) == if frame.Response? then Requester(s, t, frame.id) else s.OpenAmong(s.tunnels[t].mobiles)
  {
  }

  /** A desktop's frame is handed to all of its audience that keep up; those that do not are
      closed; and without any mobile in the tunnel the sender is told so. */
  lemma DesktopFrameFate(s: State, e: Event)
    requires Sends(s, e, Desktop)
    ensures var s' := Step(s, e); var t := s.sockets[e.c].joined.value.tunnelId; var frame := e.payload.frame;
            var audience := Audience(s, t, frame);
            && s'.history == s.history + [if frame.Response? then Answered(t, frame.id, e.c, audience - e.slow) else Broadcast(t, e.c, audience - e.slow, frame)]
            && OnlyCloses(s, s', audience * e.slow)
            && (if s.tunnels[t].mobiles == {} then OnlyTold(s, s', e.c, false) else s'.told == s.told)
  {
    var t := s.sockets[e.c].joined.value.tunnelId;
    var s0 := s.(sockets := s.sockets[e.c := s.sockets[e.c].(alive := true)]);
    AudienceIsTargets(s0, t, e.payload.frame);
    assert Audience(s0, t, e.payload.frame) == Audience(s, t, e.payload.frame);
  }

  /** Binary frames, and frames for a tunnel that is gone, go nowhere. */
  lemma OtherFramesGoNowhere(s: State, e: Event)
    requires e.Message? && CanHappen(s, e) && (e.payload.Binary? || s.sockets[e.c].joined.value.tunnelId !in s.tunnels)
    ensures var s' := Step(s, e); s'.history == s.history && s'.told == s.told && s'.tunnels == s.tunnels && OnlyCloses(s, s', {})
  {
  }

  /** A hello lets a socket into its tunnel exactly if it is well-formed and either opens the
      tunnel or presents its credential; otherwise it only closes the socket. That goes for
      every socket not greeted before and not closed, even one that is closing. */
  lemma HelloDecides(s: State, e: Event)
    requires e.First? && e.c in s.sockets && !s.sockets[e.c].greeted && !s.sockets[e.c].phase.Closed? && s.sockets[e.c].joined.None?
    ensures var s' := Step(s, e);
            var welcome := e.hello.Some? && (e.hello.value.tunnelId in s.tunnels ==> s.tunnels[e.hello.value.tunnelId].hash == e.hello.value.hash);
            && e.c in s'.sockets && s'.sockets[e.c].greeted
            && (welcome ==> s'.sockets[e.c].joined == e.hello && IsMember(s', e.c))
            && (!welcome ==> s'.sockets[e.c].joined.None? && s'.sockets[e.c].phase.Closing? && s'.history == s.history && s'.tunnels == s.tunnels && s'.told == s.told)
  {
  }

  /** The handshake timer closes an open socket that has not been greeted, and only such. */
  lemma TimeoutClosesUngreeted(s: State, c: ConnId)
    requires c in s.sockets
    ensures var s' := Step(s, HandshakeTimeout(c));
            if s.sockets[c].greeted then s' == s
            else OnlyCloses(s, s', {c}) && s'.tunnels == s.tunnels && s'.told == s.told && s'.history == s.history
  {
  }

  /** A socket may begin to close at any time, for reasons of its own or of its peer. */
  lemma SocketMayClose(s: State, c: ConnId)
    requires c in s.sockets
    ensures var s' := Step(s, Closes(c));
            OnlyCloses(s, s', {c}) && s'.tunnels == s.tunnels && s'.told == s.told && s'.history == s.history
  {
  }
}
