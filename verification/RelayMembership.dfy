/** Who belongs to which tunnel, over whole runs of the relay. */
module RelayMembership {
  import opened Wrappers
  import opened Relay

  predicate JoinedAs(s: State, c: ConnId, role: Role, t: TunnelId, hash: Hash) {
    c in s.sockets && s.sockets[c].joined == Some(Hello(role, t, hash)) && s.sockets[c].greeted
  }

  /** Members are live sockets that presented the tunnel's hash; a mobile that joined and is not yet closed is still a member; every route
      names a member and there are no routes without a desktop. */
  ghost predicate Membership(s: State) {
    && (forall t <- s.tunnels :: TunnelOk(s, t))
    && (forall c <- s.sockets :: s.sockets[c].joined.Some? && s.sockets[c].joined.value.role.Mobile? && !s.sockets[c].phase.Closed? ==>
          var t := s.sockets[c].joined.value.tunnelId; t in s.tunnels && c in s.tunnels[t].mobiles)
    && (forall c <- s.sockets :: s.sockets[c].joined.Some? ==> s.sockets[c].greeted)
  }

  ghost predicate TunnelOk(s: State, t: TunnelId)
    requires t in s.tunnels
  {
    var tunnel := s.tunnels[t];
    && (tunnel.desktop.Some? ==>
          JoinedAs(s, tunnel.desktop.value, Desktop, t, tunnel.hash) && !s.sockets[tunnel.desktop.value].phase.Closed?)
    && (forall c <- tunnel.mobiles :: JoinedAs(s, c, Mobile, t, tunnel.hash) && !s.sockets[c].phase.Closed?)
    && (forall r <- tunnel.routes :: tunnel.routes[r] in tunnel.mobiles)
    && (tunnel.routes != map[] ==> tunnel.desktop.Some?)
  }

  /** A change that leaves tunnels and memberships alone and neither closes nor
      reopens a socket. */
  ghost predicate Soft(s: State, s': State) {
    && s'.tunnels == s.tunnels
    && s'.sockets.Keys == s.sockets.Keys
    && forall c <- s.sockets :: SoftSocket(s.sockets[c], s'.sockets[c])
  }

  predicate SoftSocket(k: Socket, k': Socket) {
    k'.joined == k.joined && k'.greeted == k.greeted && k'.phase.Closed? == k.phase.Closed?
  }

  lemma SoftKeepsTunnel(s: State, s': State, t: TunnelId)
    requires Soft(s, s') && t in s.tunnels && TunnelOk(s, t)
    ensures TunnelOk(s', t)
  {
  }

  lemma SoftKeepsMembership(s: State, s': State)
    requires Soft(s, s') && Membership(s)
    ensures Membership(s')
  {
    forall t | t in s'.tunnels ensures TunnelOk(s', t) { SoftKeepsTunnel(s, s', t); }
    forall c | c in s'.sockets && s'.sockets[c].joined.Some? ensures s'.sockets[c].greeted
    {
      assert SoftSocket(s.sockets[c], s'.sockets[c]);
    }
    forall c | c in s'.sockets && s'.sockets[c].joined.Some? && s'.sockets[c].joined.value.role.Mobile? && !s'.sockets[c].phase.Closed?
      ensures var t := s'.sockets[c].joined.value.tunnelId; t in s'.tunnels && c in s'.tunnels[t].mobiles
    {
      assert SoftSocket(s.sockets[c], s'.sockets[c]);
    }
  }

  lemma CloseAllIsSoft(s: State, cs: set<ConnId>)
    ensures Soft(s, s.CloseAll(cs))
  {
  }

  lemma DisplaceIsSoft(s: State, h: Hello)
    ensures Soft(s, Displace(s, h))
  {
    var tunnel := TunnelOrNew(s.tunnels, h);
    if tunnel.desktop.Some? { CloseAllIsSoft(s, {tunnel.desktop.value}); }
  }

  lemma AdmitKeepsTunnel(s: State, c: ConnId, h: Hello, t: TunnelId)
    requires Membership(s)
    requires c in s.sockets && s.sockets[c].greeted && s.sockets[c].joined.None? && !s.sockets[c].phase.Closed?
    requires h.tunnelId in s.tunnels ==> s.tunnels[h.tunnelId].hash == h.hash
    requires t in Admit(s, c, h).tunnels
    ensures TunnelOk(Admit(s, c, h), t)
  {
    if t in s.tunnels { assert TunnelOk(s, t); }
  }

  lemma AdmitKeepsMembership(s: State, c: ConnId, h: Hello)
    requires Membership(s)
    requires c in s.sockets && s.sockets[c].greeted && s.sockets[c].joined.None? && !s.sockets[c].phase.Closed?
    requires h.tunnelId in s.tunnels ==> s.tunnels[h.tunnelId].hash == h.hash
    ensures Membership(Admit(s, c, h))
  {
    var s' := Admit(s, c, h);
    forall t | t in s'.tunnels ensures TunnelOk(s', t) { AdmitKeepsTunnel(s, c, h, t); }
  }

  lemma JoinKeepsMembership(s: State, c: ConnId, h: Hello)
    requires Membership(s)
    requires c in s.sockets && s.sockets[c].greeted && s.sockets[c].joined.None? && !s.sockets[c].phase.Closed?
    requires h.tunnelId in s.tunnels ==> s.tunnels[h.tunnelId].hash == h.hash
    ensures Membership(Join(s, c, h))
  {
    var s1 := Displace(s, h);
    DisplaceIsSoft(s, h);
    SoftKeepsMembership(s, s1);
    assert SoftSocket(s.sockets[c], s1.sockets[c]);
    AdmitKeepsMembership(s1, c, h);
    var s2 := Admit(s1, c, h);
    assert Soft(s2, Announce(s2, c, h));
    SoftKeepsMembership(s2, Announce(s2, c, h));
  }

  lemma PutRoutesKeepsMembership(s: State, t: TunnelId, routes: map<ReqId, ConnId>)
    requires Membership(s) && t in s.tunnels
    requires forall r <- routes :: routes[r] in s.tunnels[t].mobiles
    requires routes != map[] ==> s.tunnels[t].desktop.Some?
    ensures Membership(s.Put(t, s.tunnels[t].(routes := routes)))
  {
    var s' := s.Put(t, s.tunnels[t].(routes := routes));
    forall u | u in s'.tunnels ensures TunnelOk(s', u) { assert TunnelOk(s, u); }
  }

  lemma FromMobileKeepsMembership(s: State, t: TunnelId, c: ConnId, frame: Frame, slow: set<ConnId>)
    requires Membership(s) && t in s.tunnels && c in s.tunnels[t].mobiles
    ensures Membership(FromMobile(s, t, c, frame, slow))
  {
    var tunnel := s.tunnels[t];
    assert TunnelOk(s, t);
    if !s.DesktopOpen(t) {
    } else if tunnel.desktop.value in slow {
      CloseAllIsSoft(s, {tunnel.desktop.value});
      SoftKeepsMembership(s, s.Close(tunnel.desktop.value).Tell(c, false));
    } else {
      var routes := if frame.Request? then tunnel.routes[frame.id := c] else tunnel.routes;
      PutRoutesKeepsMembership(s, t, routes);
      var s1 := s.Put(t, tunnel.(routes := routes));
      SoftKeepsMembership(s1, FromMobile(s, t, c, frame, slow));
    }
  }

  lemma SameTablesKeepMembership(s: State, s': State)
    requires Membership(s) && s'.tunnels == s.tunnels && s'.sockets == s.sockets
    ensures Membership(s')
  {
    SoftKeepsMembership(s, s');
  }

  /** Closing clogged targets, or a notice, after the routes have been seen to. */
  lemma HandOutKeepsMembership(s: State, t: TunnelId, c: ConnId, cs: set<ConnId>, a: Act)
    requires Membership(s) && t in s.tunnels
    ensures Membership((if s.tunnels[t].mobiles == {} then s.Tell(c, false) else s.CloseAll(cs)).Log(a))
  {
    if s.tunnels[t].mobiles == {} {
      SameTablesKeepMembership(s, s.Tell(c, false).Log(a));
    } else {
      CloseAllIsSoft(s, cs);
      SoftKeepsMembership(s, s.CloseAll(cs));
      SameTablesKeepMembership(s.CloseAll(cs), s.CloseAll(cs).Log(a));
    }
  }

  lemma FromDesktopKeepsMembership(s: State, t: TunnelId, c: ConnId, frame: Frame, slow: set<ConnId>)
    requires Membership(s) && t in s.tunnels
    ensures Membership(FromDesktop(s, t, c, frame, slow))
  {
    var tunnel := s.tunnels[t];
    assert TunnelOk(s, t);
    if frame.Response? {
      PutRoutesKeepsMembership(s, t, tunnel.routes - {frame.id});
      var to := Requester(s, t, frame.id);
      HandOutKeepsMembership(s.Put(t, tunnel.(routes := tunnel.routes - {frame.id})), t, c, to * slow, Answered(t, frame.id, c, to - slow));
    } else {
      var to := s.OpenAmong(tunnel.mobiles);
      HandOutKeepsMembership(s, t, c, to * slow, Broadcast(t, c, to - slow, frame));
    }
  }

  lemma MessageKeepsMembership(s: State, c: ConnId, payload: Payload, slow: set<ConnId>)
    requires Membership(s) && CanHappen(s, Message(c, payload, slow))
    ensures Membership(OnMessage(s, c, payload, slow))
  {
    var h := s.sockets[c].joined.value;
    var s0 := s.(sockets := s.sockets[c := s.sockets[c].(alive := true)]);
    SoftKeepsMembership(s, s0);
    if h.tunnelId in s.tunnels && payload.Text? {
      if h.role.Mobile? {
        FromMobileKeepsMembership(s0, h.tunnelId, c, payload.frame, slow);
      } else {
        FromDesktopKeepsMembership(s0, h.tunnelId, c, payload.frame, slow);
      }
    }
  }

  lemma MarkClosedKeepsTunnel(s: State, c: ConnId, t: TunnelId)
    requires c in s.sockets && t in s.tunnels && TunnelOk(s, t)
    requires !s.tunnels[t].Has(Desktop, c) && !s.tunnels[t].Has(Mobile, c)
    ensures TunnelOk(MarkClosed(s, c), t)
  {
  }

  lemma VacatedKeepsOwnTunnel(s: State, c: ConnId)
    requires Membership(s) && CanHappen(s, CloseEvent(c)) && IsMember(s, c)
    requires s.sockets[c].joined.value.tunnelId in Vacated(s, c).tunnels
    ensures TunnelOk(Vacated(s, c), s.sockets[c].joined.value.tunnelId)
  {
    assert TunnelOk(s, s.sockets[c].joined.value.tunnelId);
  }

  lemma VacatedKeepsTunnel(s: State, c: ConnId, t: TunnelId)
    requires Membership(s) && CanHappen(s, CloseEvent(c)) && IsMember(s, c)
    requires t in Vacated(s, c).tunnels
    ensures TunnelOk(Vacated(s, c), t)
  {
    if t == s.sockets[c].joined.value.tunnelId {
      VacatedKeepsOwnTunnel(s, c);
    } else {
      assert TunnelOk(s, t);
      MarkClosedKeepsTunnel(s, c, t);
    }
  }

  /** A mobile other than the leaver stays a member. */
  lemma VacatedKeepsMobile(s: State, c: ConnId, d: ConnId)
    requires Membership(s) && CanHappen(s, CloseEvent(c)) && IsMember(s, c)
    requires d in s.sockets && d != c && !s.sockets[d].phase.Closed?
    requires s.sockets[d].joined.Some? && s.sockets[d].joined.value.role.Mobile?
    ensures var t := s.sockets[d].joined.value.tunnelId; t in Vacated(s, c).tunnels && d in Vacated(s, c).tunnels[t].mobiles
  {
    var h := s.sockets[c].joined.value;
    assert TunnelOk(s, h.tunnelId);
    if s.sockets[d].joined.value.tunnelId == h.tunnelId {
      assert d in s.tunnels[h.tunnelId].Leave(h.role, c).mobiles;
    }
  }

  lemma VacatedKeepsMembership(s: State, c: ConnId)
    requires Membership(s) && CanHappen(s, CloseEvent(c)) && IsMember(s, c)
    ensures Membership(Vacated(s, c))
  {
    var s' := Vacated(s, c);
    forall t | t in s'.tunnels ensures TunnelOk(s', t) { VacatedKeepsTunnel(s, c, t); }
    forall d | d in s'.sockets && s'.sockets[d].joined.Some? && s'.sockets[d].joined.value.role.Mobile? && !s'.sockets[d].phase.Closed?
      ensures var t := s'.sockets[d].joined.value.tunnelId; t in s'.tunnels && d in s'.tunnels[t].mobiles
    {
      VacatedKeepsMobile(s, c, d);
    }
  }

  lemma StrangerCloseKeepsMembership(s: State, c: ConnId)
    requires Membership(s) && CanHappen(s, CloseEvent(c)) && !IsMember(s, c)
    ensures Membership(MarkClosed(s, c))
  {
    var s' := MarkClosed(s, c);
    forall t | t in s'.tunnels ensures TunnelOk(s', t) {
      assert TunnelOk(s, t);
      MarkClosedKeepsTunnel(s, c, t);
    }
  }

  lemma CloseKeepsMembership(s: State, c: ConnId)
    requires Membership(s) && CanHappen(s, CloseEvent(c))
    ensures Membership(OnClose(s, c))
  {
    if IsMember(s, c) {
      VacatedKeepsMembership(s, c);
      var h := s.sockets[c].joined.value;
      SoftKeepsMembership(Vacated(s, c), Farewell(Vacated(s, c), s.tunnels[h.tunnelId], h, c));
    } else {
      StrangerCloseKeepsMembership(s, c);
    }
  }

  lemma FirstKeepsMembership(s: State, c: ConnId, hello: Option<Hello>)
    requires Membership(s) && CanHappen(s, First(c, hello))
    ensures Membership(OnFirst(s, c, hello))
  {
    assert s.sockets[c].joined.None?;
    var s0 := s.(sockets := s.sockets[c := s.sockets[c].(greeted := true)]);
    assert Membership(s0) by { forall t | t in s0.tunnels ensures TunnelOk(s0, t) { assert TunnelOk(s, t); } }
    if hello.Some? && (hello.value.tunnelId in s.tunnels ==> s.tunnels[hello.value.tunnelId].hash == hello.value.hash) {
      JoinKeepsMembership(s0, c, hello.value);
    } else {
      CloseAllIsSoft(s0, {c});
      SoftKeepsMembership(s0, s0.Close(c));
    }
  }

  lemma ConnectKeepsMembership(s: State, c: ConnId)
    requires Membership(s) && CanHappen(s, Connect(c))
    ensures Membership(OnConnect(s, c))
  {
    var s' := OnConnect(s, c);
    forall t | t in s'.tunnels ensures TunnelOk(s', t) { assert TunnelOk(s, t); }
  }

  lemma StepKeepsMembership(s: State, e: Event)
    requires Membership(s)
    ensures Membership(Step(s, e))
  {
    if CanHappen(s, e) {
      match e
      case Connect(c) => ConnectKeepsMembership(s, c);
      case First(c, hello) => FirstKeepsMembership(s, c, hello);
      case Message(c, payload, slow) => MessageKeepsMembership(s, c, payload, slow);
      case CloseEvent(c) => CloseKeepsMembership(s, c);
      case HandshakeTimeout(c) => CloseAllIsSoft(s, {c}); SoftKeepsMembership(s, Step(s, e));
      case Closes(c) => CloseAllIsSoft(s, {c}); SoftKeepsMembership(s, Step(s, e));
      case Pong(c) => SoftKeepsMembership(s, Step(s, e));
      case Heartbeat => SoftKeepsMembership(s, Step(s, e));
    }
  }

  lemma {:induction false} RunKeepsMembership(es: seq<Event>)
    ensures Membership(Run(es))
  {
    if es != [] {
      RunKeepsMembership(es[..|es| - 1]);
      StepKeepsMembership(Run(es[..|es| - 1]), es[|es| - 1]);
    }
  }

  // --------------------------------------------------------- replaced desktops

  predicate Past(s: State, c: ConnId) { c in s.sockets && s.sockets[c].greeted && !IsMember(s, c) }

  lemma JoinNeverReadmits(s: State, d: ConnId, h: Hello, c: ConnId)
    requires Past(s, c) && d in s.sockets && c != d
    ensures Past(Join(s, d, h), c)
  {
  }

  lemma FromMobileNeverReadmits(s: State, t: TunnelId, d: ConnId, frame: Frame, slow: set<ConnId>, c: ConnId)
    requires Past(s, c) && t in s.tunnels
    ensures Past(FromMobile(s, t, d, frame, slow), c)
  {
  }

  lemma FromDesktopNeverReadmits(s: State, t: TunnelId, d: ConnId, frame: Frame, slow: set<ConnId>, c: ConnId)
    requires Past(s, c) && t in s.tunnels
    ensures Past(FromDesktop(s, t, d, frame, slow), c)
  {
  }

  lemma MessageNeverReadmits(s: State, e: Event, c: ConnId)
    requires Past(s, c) && e.Message? && CanHappen(s, e)
    ensures Past(Step(s, e), c)
  {
    var t := s.sockets[e.c].joined.value.tunnelId;
    var s0 := s.(sockets := s.sockets[e.c := s.sockets[e.c].(alive := true)]);
    assert Past(s0, c);
    if t in s.tunnels && e.payload.Text? {
      FromMobileNeverReadmits(s0, t, e.c, e.payload.frame, e.slow, c);
      FromDesktopNeverReadmits(s0, t, e.c, e.payload.frame, e.slow, c);
    }
  }

  lemma CloseNeverReadmits(s: State, d: ConnId, c: ConnId)
    requires Past(s, c) && CanHappen(s, CloseEvent(d))
    ensures Past(OnClose(s, d), c)
  {
    if IsMember(s, d) {
      assert Past(Vacated(s, d), c);
    }
  }

  lemma StepNeverReadmits(s: State, e: Event, c: ConnId)
    requires Past(s, c)
    ensures Past(Step(s, e), c)
  {
    if CanHappen(s, e) {
      match e
      case First(d, hello) =>
        if hello.Some? { JoinNeverReadmits(s.(sockets := s.sockets[d := s.sockets[d].(greeted := true)]), d, hello.value, c); }
      case Message(_, _, _) => MessageNeverReadmits(s, e, c);
      case CloseEvent(d) => CloseNeverReadmits(s, d, c);
      case _ =>
    }
  }

  /** Once a desktop has been replaced (or any member has gone), nothing brings it back:
      whatever happens first, its own close event changes its phase and nothing else. */
  lemma {:induction false} ReplacedMemberChangesNothing(s: State, es: seq<Event>, c: ConnId)
    requires Past(s, c)
    ensures var s' := RunFrom(s, es);
            && Past(s', c)
            && var after := Step(s', CloseEvent(c));
               after.tunnels == s'.tunnels && after.told == s'.told && after.history == s'.history
  {
    if es != [] {
      var before := es[..|es| - 1];
      ReplacedMemberChangesNothing(s, before, c);
      StepNeverReadmits(RunFrom(s, before), es[|es| - 1], c);
    }
  }

  /** A desktop hello on a tunnel that already has a desktop makes the old one such a
      past member, and starts closing it. */
  lemma ReplacementRetiresDesktop(s: State, c: ConnId, h: Hello, d: ConnId)
    requires Membership(s) && CanHappen(s, First(c, Some(h))) && h.role.Desktop?
    requires h.tunnelId in s.tunnels && s.tunnels[h.tunnelId].hash == h.hash && s.tunnels[h.tunnelId].desktop == Some(d)
    ensures var s' := Step(s, First(c, Some(h)));
            s'.tunnels[h.tunnelId].desktop == Some(c) && Past(s', d) && !s'.sockets[d].phase.Open?
  {
    assert TunnelOk(s, h.tunnelId);
  }
}
