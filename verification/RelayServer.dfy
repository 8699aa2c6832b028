/** The relay's handlers as they run: they update the tunnel and socket tables in place.
    Each one is proved to take exactly the step the protocol model says. */
module RelayServer {
  import opened Wrappers
  import opened Relay

  lemma TellAllGrows(s: State, told: set<ConnId>, c: ConnId, online: bool)
    ensures s.TellAll(told, online).Tell(c, online) == s.TellAll(told + {c}, online)
  {
    var one := s.TellAll(told, online).Tell(c, online).told;
    var all := s.TellAll(told + {c}, online).told;
    forall d: ConnId ensures d in one <==> d in all {
      assert d in s.OpenAmong(told + {c}) <==> d in s.OpenAmong(told) || (d == c && s.IsOpen(c));
    }
    assert one == all;
  }

  lemma CloseAllGrows(s: State, closed: set<ConnId>, c: ConnId)
    ensures s.CloseAll(closed).Close(c) == s.CloseAll(closed + {c})
  {
  }

  /** The notices of a departure do not depend on what becomes of the tunnel. */
  lemma FarewellAside(s: State, before: Tunnel, h: Hello, c: ConnId, tunnels: map<TunnelId, Tunnel>)
    ensures Farewell(s.(tunnels := tunnels), before, h, c) == Farewell(s, before, h, c).(tunnels := tunnels)
  {
    var s' := s.(tunnels := tunnels);
    assert s'.Log(DesktopLeft(h.tunnelId)).TellAll(before.mobiles, false) == s.Log(DesktopLeft(h.tunnelId)).TellAll(before.mobiles, false).(tunnels := tunnels);
  }

  class Server {
    var tunnels: map<TunnelId, Tunnel>
    var sockets: map<ConnId, Socket>
    ghost var told: map<ConnId, bool>
    ghost var history: seq<Act>

    ghost function Now(): State
      reads this
    {
      State(tunnels, sockets, told, history)
    }

    constructor ()
      ensures Now() == INIT
    {
      tunnels, sockets, told, history := map[], map[], map[], [];
    }

    method SendNotice(c: ConnId, online: bool)
      modifies this`told
      ensures Now() == old(Now()).Tell(c, online)
    {
      if c in sockets && sockets[c].phase.Open? {
        told := told[c := online];
      }
    }

    method NotifyAll(cs: set<ConnId>, online: bool)
      modifies this`told
      ensures Now() == old(Now()).TellAll(cs, online)
    {
      var rest := cs;
      while rest != {}
        invariant rest <= cs
        invariant Now() == old(Now()).TellAll(cs - rest, online)
      {
        var c :| c in rest;
        SendNotice(c, online);
        TellAllGrows(old(Now()), cs - rest, c, online);
        assert cs - (rest - {c}) == cs - rest + {c};
        rest := rest - {c};
      }
      assert cs - rest == cs;
    }

    method CloseSocket(c: ConnId)
      modifies this`sockets
      ensures Now() == old(Now()).Close(c)
    {
      if c in sockets && sockets[c].phase.Open? {
        sockets := sockets[c := sockets[c].(phase := Closing)];
      }
    }

    method CloseSockets(cs: set<ConnId>)
      modifies this`sockets
      ensures Now() == old(Now()).CloseAll(cs)
    {
      var rest := cs;
      while rest != {}
        invariant rest <= cs
        invariant Now() == old(Now()).CloseAll(cs - rest)
      {
        var c :| c in rest;
        CloseSocket(c);
        CloseAllGrows(old(Now()), cs - rest, c);
        assert cs - (rest - {c}) == cs - rest + {c};
        rest := rest - {c};
      }
    }

    method Connection(c: ConnId)
      requires CanHappen(Now(), Connect(c))
      modifies this
      ensures Now() == Step(old(Now()), Connect(c))
    {
      sockets := sockets[c := Socket(Open, false, None, true)];
    }

    method FirstMessage(c: ConnId, hello: Option<Hello>)
      requires CanHappen(Now(), First(c, hello))
      modifies this
      ensures Now() == Step(old(Now()), First(c, hello))
    {
      sockets := sockets[c := sockets[c].(greeted := true)];
      if hello.None? {
        CloseSocket(c);
        return;
      }
      var h := hello.value;
      if h.tunnelId in tunnels && tunnels[h.tunnelId].hash != h.hash {
        CloseSocket(c);
        return;
      }
      Accept(c, h);
    }

    method Accept(c: ConnId, h: Hello)
      requires c in sockets
      modifies this
      ensures Now() == Join(old(Now()), c, h)
    {
      var tunnel := TunnelOrNew(tunnels, h);
      if h.role.Desktop? {
        if tunnel.desktop.Some? {
          CloseSocket(tunnel.desktop.value);
        }
        tunnel := tunnel.(desktop := Some(c));
      } else {
        tunnel := tunnel.(mobiles := tunnel.mobiles + {c});
      }
      tunnels := tunnels[h.tunnelId := tunnel];
      sockets := sockets[c := sockets[c].(joined := Some(h))];
      assert Now() == Admit(Displace(old(Now()), h), c, h);
      Welcome(c, h);
    }

    method Welcome(c: ConnId, h: Hello)
      requires h.tunnelId in tunnels
      modifies this`told
      ensures Now() == Announce(old(Now()), c, h)
    {
      var tunnel := tunnels[h.tunnelId];
      var peerOnline := false;
      if h.role.Desktop? {
        peerOnline := exists m <- tunnel.mobiles :: m in sockets && sockets[m].phase.Open?;
        assert peerOnline <==> Now().OpenAmong(tunnel.mobiles) != {} by {
          if m :| m in Now().OpenAmong(tunnel.mobiles) { assert m in tunnel.mobiles; }
          if m :| m in tunnel.mobiles && m in sockets && sockets[m].phase.Open? { assert m in Now().OpenAmong(tunnel.mobiles); }
        }
      } else {
        peerOnline := tunnel.desktop.Some? && tunnel.desktop.value in sockets && sockets[tunnel.desktop.value].phase.Open?;
      }
      SendNotice(c, peerOnline);
      if peerOnline {
        if h.role.Desktop? {
          NotifyAll(tunnel.mobiles, true);
        } else {
          SendNotice(tunnel.desktop.value, true);
        }
      }
    }

    method ReceiveMessage(c: ConnId, payload: Payload, slow: set<ConnId>)
      requires CanHappen(Now(), Message(c, payload, slow))
      modifies this
      ensures Now() == Step(old(Now()), Message(c, payload, slow))
    {
      var h := sockets[c].joined.value;
      sockets := sockets[c := sockets[c].(alive := true)];
      if h.tunnelId in tunnels && payload.Text? {
        if h.role.Mobile? {
          MobileFrame(h.tunnelId, c, payload.frame, slow);
        } else {
          DesktopFrame(h.tunnelId, c, payload.frame, slow);
        }
      }
    }

    method MobileFrame(t: TunnelId, c: ConnId, frame: Frame, slow: set<ConnId>)
      requires t in tunnels
      modifies this
      ensures Now() == FromMobile(old(Now()), t, c, frame, slow)
    {
      var target := tunnels[t].desktop;
      if target.None? || target.value !in sockets || !sockets[target.value].phase.Open? {
        SendNotice(c, false);
        return;
      }
      if target.value in slow {
        CloseSocket(target.value);
        SendNotice(c, false);
        return;
      }
      if frame.Request? {
        tunnels := tunnels[t := tunnels[t].(routes := tunnels[t].routes[frame.id := c])];
      } else {
        assert tunnels == tunnels[t := tunnels[t].(routes := tunnels[t].routes)];
      }
      history := history + [Forwarded(t, c, target.value, frame)];
    }

    method DesktopFrame(t: TunnelId, c: ConnId, frame: Frame, slow: set<ConnId>)
      requires t in tunnels
      modifies this
      ensures Now() == FromDesktop(old(Now()), t, c, frame, slow)
    {
      var targets: set<ConnId> := {};
      if frame.Response? {
        if frame.id in tunnels[t].routes {
          var asker := tunnels[t].routes[frame.id];
          if asker in tunnels[t].mobiles && asker in sockets && sockets[asker].phase.Open? {
            targets := {asker};
          }
        }
        assert targets == Requester(Now(), t, frame.id);
        tunnels := tunnels[t := tunnels[t].(routes := tunnels[t].routes - {frame.id})];
      } else {
        targets := set m | m in tunnels[t].mobiles && m in sockets && sockets[m].phase.Open?;
        assert targets == Now().OpenAmong(tunnels[t].mobiles);
      }
      if tunnels[t].mobiles == {} {
        SendNotice(c, false);
      } else {
        CloseSockets(targets * slow);
      }
      history := history + [if frame.Response? then Answered(t, frame.id, c, targets - slow) else Broadcast(t, c, targets - slow, frame)];
    }

    method HeartbeatTick()
      modifies this
      ensures Now() == Step(old(Now()), Heartbeat)
    {
      var rest := sockets.Keys;
      while rest != {}
        invariant rest <= sockets.Keys == old(sockets).Keys
        invariant forall c <- sockets :: sockets[c] == if c in rest then old(sockets)[c] else OnHeartbeat(old(Now())).sockets[c]
        invariant tunnels == old(tunnels) && told == old(told) && history == old(history)
      {
        var c :| c in rest;
        if !sockets[c].phase.Closed? {
          if sockets[c].alive {
            sockets := sockets[c := sockets[c].(alive := false)];
          } else {
            CloseSocket(c);
          }
        }
        rest := rest - {c};
      }
    }

    /** The close handler. `threw` is its outcome: telling a desktop that is not there
        fails, after the member and its routes are gone and before the tunnel could be deleted. */
    method Closed(c: ConnId) returns (threw: bool)
      requires CanHappen(Now(), CloseEvent(c))
      modifies this
      ensures Now() == Step(old(Now()), CloseEvent(c))
      ensures threw <==> old(IsMember(Now(), c) && Throws(tunnels[sockets[c].joined.value.tunnelId], sockets[c].joined.value.role, c))
    {
      sockets := sockets[c := sockets[c].(phase := Phase.Closed, greeted := true)];
      threw := false;
      if sockets[c].joined.None? || sockets[c].joined.value.tunnelId !in tunnels {
        return;
      }
      var h := sockets[c].joined.value;
      var tunnel := tunnels[h.tunnelId];
      if !tunnel.Has(h.role, c) {
        return;
      }
      if h.role.Desktop? {
        tunnel := tunnel.(desktop := None, routes := map[]);
      } else {
        tunnel := tunnel.(mobiles := tunnel.mobiles - {c});
        var rest := tunnel.routes.Keys;
        ghost var routes := tunnel.routes;
        while rest != {}
          invariant rest <= tunnel.routes.Keys <= routes.Keys
          invariant tunnel == tunnel.(routes := map r | r in routes && (r in rest || routes[r] != c) :: routes[r])
          invariant tunnel.(routes := map[]) == old(tunnels)[h.tunnelId].(mobiles := old(tunnels)[h.tunnelId].mobiles - {c}, routes := map[])
        {
          var r :| r in rest;
          if tunnel.routes[r] == c {
            tunnel := tunnel.(routes := tunnel.routes - {r});
          }
          rest := rest - {r};
        }
      }
      threw := SignOff(c, h, tunnel);
    }

    /** Notices to the other side, then the tunnel is deleted if nobody is left, unless the
        notices failed. */
    method SignOff(c: ConnId, h: Hello, tunnel: Tunnel) returns (threw: bool)
      requires h.tunnelId in tunnels && tunnel == tunnels[h.tunnelId].Leave(h.role, c)
      requires tunnels[h.tunnelId].Has(h.role, c)
      modifies this
      ensures threw == Throws(old(tunnels)[h.tunnelId], h.role, c)
      ensures Now() == Farewell(StoreOrDrop(old(Now()), h.tunnelId, tunnel, threw), old(tunnels)[h.tunnelId], h, c)
    {
      ghost var before := tunnels[h.tunnelId];
      threw := Dismiss(c, h, before, tunnel);
      tunnels := tunnels[h.tunnelId := tunnel];
      if !threw && tunnel.desktop.None? && tunnel.mobiles == {} {
        tunnels := tunnels - {h.tunnelId};
      }
      assert old(tunnels)[h.tunnelId := tunnel] - {h.tunnelId} == old(tunnels) - {h.tunnelId};
      FarewellAside(old(Now()), before, h, c, tunnels);
    }

    /** The notices of a departure from `before`, which leaves `tunnel`. */
    method Dismiss(c: ConnId, h: Hello, ghost before: Tunnel, tunnel: Tunnel) returns (threw: bool)
      requires tunnel == before.Leave(h.role, c) && before.Has(h.role, c)
      modifies this`history, this`told
      ensures threw == Throws(before, h.role, c)
      ensures Now() == Farewell(old(Now()), before, h, c)
    {
      threw := false;
      if h.role.Desktop? {
        history := history + [DesktopLeft(h.tunnelId)];
        NotifyAll(tunnel.mobiles, false);
      } else {
        threw := tunnel.mobiles == {} && tunnel.desktop.None?;
        history := history + [MobileLeft(h.tunnelId, c, threw)];
        if tunnel.mobiles == {} && !threw {
          SendNotice(tunnel.desktop.value, false);
        }
      }
    }
  }
}
