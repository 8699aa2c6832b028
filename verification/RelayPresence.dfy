/** The presence notices on the wire agree with the relay's state, over whole runs. */
module RelayPresence {
  import opened Wrappers
  import opened Relay
  import opened RelayMembership

  predicate ToldIs(s: State, c: ConnId, online: bool) { c in s.told && s.told[c] == online }

  /** The notices each side last got agree with the relay's state:
      an open desktop means every open mobile was last told "online"; a mobile last told
      "online" has a desktop installed; an open desktop with an open mobile was last told
      "online"; and a desktop last told "online" has a mobile. */
  ghost predicate PresenceOk(s: State, t: TunnelId)
    requires t in s.tunnels
  {
    var tunnel := s.tunnels[t];
    && (s.DesktopOpen(t) ==> forall m <- tunnel.mobiles :: s.IsOpen(m) ==> ToldIs(s, m, true))
    && (forall m <- tunnel.mobiles :: s.IsOpen(m) && ToldIs(s, m, true) ==> tunnel.desktop.Some?)
    && (s.DesktopOpen(t) && s.OpenAmong(tunnel.mobiles) != {} ==> ToldIs(s, tunnel.desktop.value, true))
    && (s.DesktopOpen(t) && ToldIs(s, tunnel.desktop.value, true) ==> tunnel.mobiles != {})
  }

  ghost predicate Presence(s: State) { forall t <- s.tunnels :: PresenceOk(s, t) }

  predicate HasMember(s: State, t: TunnelId, c: ConnId)
    requires t in s.tunnels
  {
    s.tunnels[t].Has(Desktop, c) || s.tunnels[t].Has(Mobile, c)
  }

  /** Same members, no member newly open, and no member told anything new. */
  ghost predicate Quieter(s: State, s': State, t: TunnelId) {
    && t in s.tunnels && t in s'.tunnels
    && s'.tunnels[t].desktop == s.tunnels[t].desktop && s'.tunnels[t].mobiles == s.tunnels[t].mobiles
    && forall c: ConnId :: HasMember(s, t, c) ==> (s'.IsOpen(c) ==> s.IsOpen(c)) && (forall b: bool :: ToldIs(s', c, b) == ToldIs(s, c, b))
  }

  lemma QuieterKeepsPresence(s: State, s': State, t: TunnelId)
    requires Quieter(s, s', t) && PresenceOk(s, t)
    ensures PresenceOk(s', t)
  {
    var tunnel := s.tunnels[t];
    if s'.DesktopOpen(t) {
      var d := tunnel.desktop.value;
      assert HasMember(s, t, d);
      if m :| m in s'.OpenAmong(tunnel.mobiles) { assert HasMember(s, t, m); assert m in s.OpenAmong(tunnel.mobiles); }
    }
    forall m | m in tunnel.mobiles && s'.IsOpen(m) ensures s.IsOpen(m) && ToldIs(s', m, true) == ToldIs(s, m, true) { assert HasMember(s, t, m); }
  }

  /** A handler working for tunnel `t`: other tunnels keep their members, nobody newly
      opens, and only sockets that joined `t` are told anything. */
  ghost predicate Local(s: State, s': State, t: TunnelId) {
    && (forall u <- s'.tunnels :: u != t ==>
          u in s.tunnels && s'.tunnels[u].desktop == s.tunnels[u].desktop && s'.tunnels[u].mobiles == s.tunnels[u].mobiles)
    && (forall c <- s'.sockets :: s'.IsOpen(c) ==> s.IsOpen(c))
    && (forall c: ConnId, b: bool :: ToldIs(s', c, b) != ToldIs(s, c, b) ==> JoinedTunnel(s', c, t))
  }

  predicate JoinedTunnel(s: State, c: ConnId, t: TunnelId) {
    c in s.sockets && s.sockets[c].joined.Some? && s.sockets[c].joined.value.tunnelId == t
  }

  lemma LocalKeepsOthers(s: State, s': State, t: TunnelId, u: TunnelId)
    requires Presence(s) && Membership(s') && Local(s, s', t)
    requires u in s'.tunnels && u != t
    ensures PresenceOk(s', u)
  {
    assert TunnelOk(s', u);
    assert Quieter(s, s', u);
    QuieterKeepsPresence(s, s', u);
  }

  lemma LocalKeepsPresence(s: State, s': State, t: TunnelId)
    requires Presence(s) && Membership(s') && Local(s, s', t)
    requires t in s'.tunnels ==> PresenceOk(s', t)
    ensures Presence(s')
  {
    forall u | u in s'.tunnels ensures PresenceOk(s', u) {
      if u != t { LocalKeepsOthers(s, s', t, u); }
    }
  }

  lemma DesktopAnnounced(s: State, c: ConnId, h: Hello)
    requires h.role.Desktop? && h.tunnelId in s.tunnels && s.tunnels[h.tunnelId].desktop == Some(c)
    ensures PresenceOk(Announce(s, c, h), h.tunnelId)
  {
    var mobiles := s.tunnels[h.tunnelId].mobiles;
    var s' := Announce(s, c, h);
    assert s'.OpenAmong(mobiles) == s.OpenAmong(mobiles);
    forall m | m in mobiles && s'.IsOpen(m) ensures ToldIs(s', m, true) { assert m in s.OpenAmong(mobiles); }
  }

  lemma MobileAnnounced(s: State, c: ConnId, h: Hello)
    requires h.role.Mobile? && h.tunnelId in s.tunnels
    requires var tunnel := s.tunnels[h.tunnelId];
             && c in tunnel.mobiles && tunnel.desktop != Some(c)
             && (s.DesktopOpen(h.tunnelId) ==> forall m <- tunnel.mobiles :: m != c && s.IsOpen(m) ==> ToldIs(s, m, true))
             && (forall m <- tunnel.mobiles :: m != c && s.IsOpen(m) && ToldIs(s, m, true) ==> tunnel.desktop.Some?)
    ensures PresenceOk(Announce(s, c, h), h.tunnelId)
  {
  }

  /** Announcing a member tells members only. */
  lemma AnnounceTellsMembers(s: State, c: ConnId, h: Hello, d: ConnId, b: bool)
    requires Membership(s) && h.tunnelId in s.tunnels && s.tunnels[h.tunnelId].Has(h.role, c)
    requires ToldIs(Announce(s, c, h), d, b) != ToldIs(s, d, b)
    ensures JoinedTunnel(s, d, h.tunnelId)
  {
    assert TunnelOk(s, h.tunnelId);
    assert HasMember(s, h.tunnelId, d);
  }

  lemma AdmitIsLocal(s: State, c: ConnId, h: Hello)
    requires c in s.sockets
    ensures var s2 := Admit(Displace(s, h), c, h); s2.told == s.told && Local(s, s2, h.tunnelId)
  {
  }

  lemma AnnounceIsLocal(s: State, s2: State, c: ConnId, h: Hello)
    requires Membership(s2) && h.tunnelId in s2.tunnels && s2.tunnels[h.tunnelId].Has(h.role, c)
    requires s2.told == s.told && Local(s, s2, h.tunnelId)
    ensures Local(s, Announce(s2, c, h), h.tunnelId)
  {
    var s' := Announce(s2, c, h);
    forall d: ConnId, b: bool | ToldIs(s', d, b) != ToldIs(s, d, b) ensures JoinedTunnel(s', d, h.tunnelId) {
      AnnounceTellsMembers(s2, c, h, d, b);
    }
  }

  lemma JoinIsLocal(s: State, c: ConnId, h: Hello)
    requires Membership(s)
    requires c in s.sockets && s.sockets[c].greeted && s.sockets[c].joined.None? && !s.sockets[c].phase.Closed?
    requires h.tunnelId in s.tunnels ==> s.tunnels[h.tunnelId].hash == h.hash
    ensures Local(s, Join(s, c, h), h.tunnelId)
  {
    var s1 := Displace(s, h);
    DisplaceIsSoft(s, h);
    SoftKeepsMembership(s, s1);
    assert SoftSocket(s.sockets[c], s1.sockets[c]);
    AdmitKeepsMembership(s1, c, h);
    AdmitIsLocal(s, c, h);
    AnnounceIsLocal(s, Admit(s1, c, h), c, h);
  }

  lemma JoinKeepsPresence(s: State, c: ConnId, h: Hello)
    requires Membership(s) && Presence(s)
    requires c in s.sockets && s.sockets[c].greeted && s.sockets[c].joined.None? && !s.sockets[c].phase.Closed?
    requires h.tunnelId in s.tunnels ==> s.tunnels[h.tunnelId].hash == h.hash
    ensures Presence(Join(s, c, h))
  {
    JoinKeepsMembership(s, c, h);
    JoinIsLocal(s, c, h);
    var s2 := Admit(Displace(s, h), c, h);
    if h.role.Desktop? {
      DesktopAnnounced(s2, c, h);
    } else {
      if h.tunnelId in s.tunnels { assert PresenceOk(s, h.tunnelId) && TunnelOk(s, h.tunnelId); }
      MobileAnnounced(s2, c, h);
    }
    LocalKeepsPresence(s, Join(s, c, h), h.tunnelId);
  }

  lemma FromMobileIsLocal(s: State, t: TunnelId, c: ConnId, frame: Frame, slow: set<ConnId>)
    requires t in s.tunnels && JoinedTunnel(s, c, t)
    ensures Local(s, FromMobile(s, t, c, frame, slow), t)
  {
    var s' := FromMobile(s, t, c, frame, slow);
    forall d: ConnId, b: bool | ToldIs(s', d, b) != ToldIs(s, d, b) ensures d == c { }
  }

  lemma FromMobileSettlesTunnel(s: State, t: TunnelId, c: ConnId, frame: Frame, slow: set<ConnId>)
    requires t in s.tunnels && c in s.tunnels[t].mobiles && PresenceOk(s, t)
    ensures PresenceOk(FromMobile(s, t, c, frame, slow), t)
  {
    var s' := FromMobile(s, t, c, frame, slow);
    if s.DesktopOpen(t) && s.tunnels[t].desktop.value !in slow {
      QuieterKeepsPresence(s, s', t);
    } else {
      assert !s'.DesktopOpen(t);
    }
  }

  lemma FromMobileKeepsPresence(s: State, t: TunnelId, c: ConnId, frame: Frame, slow: set<ConnId>)
    requires Membership(s) && Presence(s) && t in s.tunnels && c in s.tunnels[t].mobiles
    ensures Presence(FromMobile(s, t, c, frame, slow))
  {
    FromMobileKeepsMembership(s, t, c, frame, slow);
    assert TunnelOk(s, t);
    FromMobileIsLocal(s, t, c, frame, slow);
    FromMobileSettlesTunnel(s, t, c, frame, slow);
    LocalKeepsPresence(s, FromMobile(s, t, c, frame, slow), t);
  }

  lemma FromDesktopIsLocal(s: State, t: TunnelId, c: ConnId, frame: Frame, slow: set<ConnId>)
    requires t in s.tunnels && JoinedTunnel(s, c, t)
    ensures Local(s, FromDesktop(s, t, c, frame, slow), t)
  {
    var s' := FromDesktop(s, t, c, frame, slow);
    forall d: ConnId, b: bool | ToldIs(s', d, b) != ToldIs(s, d, b) ensures d == c { }
  }

  lemma FromDesktopSettlesTunnel(s: State, t: TunnelId, c: ConnId, frame: Frame, slow: set<ConnId>)
    requires t in s.tunnels && PresenceOk(s, t)
    ensures PresenceOk(FromDesktop(s, t, c, frame, slow), t)
  {
    if s.tunnels[t].mobiles != {} { QuieterKeepsPresence(s, FromDesktop(s, t, c, frame, slow), t); }
  }

  lemma FromDesktopKeepsPresence(s: State, t: TunnelId, c: ConnId, frame: Frame, slow: set<ConnId>)
    requires Membership(s) && Presence(s) && t in s.tunnels
    requires JoinedTunnel(s, c, t) && s.sockets[c].joined.value.role.Desktop?
    ensures Presence(FromDesktop(s, t, c, frame, slow))
  {
    FromDesktopKeepsMembership(s, t, c, frame, slow);
    FromDesktopIsLocal(s, t, c, frame, slow);
    FromDesktopSettlesTunnel(s, t, c, frame, slow);
    LocalKeepsPresence(s, FromDesktop(s, t, c, frame, slow), t);
  }

  lemma MessageKeepsPresence(s: State, c: ConnId, payload: Payload, slow: set<ConnId>)
    requires Membership(s) && Presence(s) && CanHappen(s, Message(c, payload, slow))
    ensures Presence(OnMessage(s, c, payload, slow))
  {
    var h := s.sockets[c].joined.value;
    var s0 := s.(sockets := s.sockets[c := s.sockets[c].(alive := true)]);
    QuietKeepsPresence(s, s0);
    SoftKeepsMembership(s, s0);
    if h.tunnelId in s.tunnels && payload.Text? {
      if h.role.Mobile? {
        FromMobileKeepsPresence(s0, h.tunnelId, c, payload.frame, slow);
      } else {
        FromDesktopKeepsPresence(s0, h.tunnelId, c, payload.frame, slow);
      }
    }
  }

  /** Nobody newly open, nothing said, tunnels untouched. */
  lemma QuietKeepsPresence(s: State, s': State)
    requires Presence(s) && s'.tunnels == s.tunnels && s'.told == s.told
    requires forall c <- s'.sockets :: s'.IsOpen(c) && c in s.sockets ==> s.IsOpen(c)
    requires Membership(s)
    ensures Presence(s')
  {
    forall t | t in s'.tunnels ensures PresenceOk(s', t) {
      assert TunnelOk(s, t);
      QuieterKeepsPresence(s, s', t);
    }
  }

  lemma FarewellSettlesTunnel(s: State, c: ConnId)
    requires Membership(s) && Presence(s) && CanHappen(s, CloseEvent(c)) && IsMember(s, c)
    requires s.sockets[c].joined.value.tunnelId in Vacated(s, c).tunnels
    ensures PresenceOk(OnClose(s, c), s.sockets[c].joined.value.tunnelId)
  {
    var t := s.sockets[c].joined.value.tunnelId;
    assert TunnelOk(s, t) && PresenceOk(s, t);
  }

  lemma FarewellTellsMembers(s: State, c: ConnId, d: ConnId, b: bool)
    requires Membership(s) && CanHappen(s, CloseEvent(c)) && IsMember(s, c)
    requires ToldIs(OnClose(s, c), d, b) != ToldIs(s, d, b)
    ensures JoinedTunnel(OnClose(s, c), d, s.sockets[c].joined.value.tunnelId)
  {
    var t := s.sockets[c].joined.value.tunnelId;
    assert TunnelOk(s, t);
    assert HasMember(s, t, d);
  }

  lemma CloseIsLocal(s: State, c: ConnId)
    requires Membership(s) && CanHappen(s, CloseEvent(c)) && IsMember(s, c)
    ensures Local(s, OnClose(s, c), s.sockets[c].joined.value.tunnelId)
  {
    var s' := OnClose(s, c);
    forall d: ConnId, b: bool | ToldIs(s', d, b) != ToldIs(s, d, b) ensures JoinedTunnel(s', d, s.sockets[c].joined.value.tunnelId) {
      FarewellTellsMembers(s, c, d, b);
    }
  }

  lemma CloseKeepsPresence(s: State, c: ConnId)
    requires Membership(s) && Presence(s) && CanHappen(s, CloseEvent(c))
    ensures Presence(OnClose(s, c))
  {
    var s' := OnClose(s, c);
    if IsMember(s, c) {
      var t := s.sockets[c].joined.value.tunnelId;
      CloseKeepsMembership(s, c);
      if t in s'.tunnels { FarewellSettlesTunnel(s, c); }
      CloseIsLocal(s, c);
      LocalKeepsPresence(s, s', t);
    } else {
      QuietKeepsPresence(s, s');
    }
  }

  lemma FirstKeepsPresence(s: State, c: ConnId, hello: Option<Hello>)
    requires Membership(s) && Presence(s) && CanHappen(s, First(c, hello))
    ensures Presence(OnFirst(s, c, hello))
  {
    assert s.sockets[c].joined.None?;
    var s0 := s.(sockets := s.sockets[c := s.sockets[c].(greeted := true)]);
    QuietKeepsPresence(s, s0);
    assert Membership(s0) by { forall t | t in s0.tunnels ensures TunnelOk(s0, t) { assert TunnelOk(s, t); } }
    if hello.Some? && (hello.value.tunnelId in s.tunnels ==> s.tunnels[hello.value.tunnelId].hash == hello.value.hash) {
      JoinKeepsPresence(s0, c, hello.value);
    } else {
      QuietKeepsPresence(s0, s0.Close(c));
    }
  }

  lemma StepKeepsPresence(s: State, e: Event)
    requires Membership(s) && Presence(s)
    ensures Presence(Step(s, e))
  {
    if CanHappen(s, e) {
      match e
      case First(c, hello) => FirstKeepsPresence(s, c, hello);
      case Message(c, payload, slow) => MessageKeepsPresence(s, c, payload, slow);
      case CloseEvent(c) => CloseKeepsPresence(s, c);
      case _ => QuietKeepsPresence(s, Step(s, e));
    }
  }

  /** Presence agreement holds in every reachable state. */
  lemma {:induction false} PresenceAgreement(es: seq<Event>)
    ensures Presence(Run(es))
  {
    if es != [] {
      var before := es[..|es| - 1];
      PresenceAgreement(before);
      RunKeepsMembership(before);
      StepKeepsPresence(Run(before), es[|es| - 1]);
    }
  }
}
