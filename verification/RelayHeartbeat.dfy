/** What the heartbeat does to a socket, told from the events alone: between two ticks a
    socket must have connected, ponged, or sent a frame after its hello. */
module RelayHeartbeat {
  import opened Wrappers
  import opened Relay

  /** A sign of life of the socket `c`; its hello is none. */
  predicate Sign(s: State, e: Event, c: ConnId) {
    || (e == Connect(c) && c !in s.sockets)
    || (e == Pong(c) && Present(s, c))
    || (e.Message? && e.c == c && Present(s, c) && s.sockets[c].joined.Some?)
  }

  /** The socket has shown a sign of life since the last tick. */
  predicate HeardSinceTick(es: seq<Event>, c: ConnId) {
    es != [] && es[|es| - 1] != Heartbeat
    && (Sign(Run(es[..|es| - 1]), es[|es| - 1], c) || HeardSinceTick(es[..|es| - 1], c))
  }

  /** Still in the server's hands: open, or closing and not closed. */
  predicate Present(s: State, c: ConnId) { c in s.sockets && !s.sockets[c].phase.Closed? }

  /** Handing a frame on may begin to close sockets, and leaves their signs alone. */
  ghost predicate SameSigns(s: State, s': State) {
    && s'.sockets.Keys == s.sockets.Keys
    && forall c <- s.sockets :: s'.sockets[c].alive == s.sockets[c].alive && (s'.sockets[c].phase.Closed? <==> s.sockets[c].phase.Closed?)
  }

  lemma MobileFrameKeepsSigns(s: State, t: TunnelId, c: ConnId, frame: Frame, slow: set<ConnId>)
    requires t in s.tunnels
    ensures SameSigns(s, FromMobile(s, t, c, frame, slow))
  {
  }

  lemma DesktopFrameKeepsSigns(s: State, t: TunnelId, c: ConnId, frame: Frame, slow: set<ConnId>)
    requires t in s.tunnels
    ensures SameSigns(s, FromDesktop(s, t, c, frame, slow))
  {
  }

  lemma MessageIsASign(s: State, e: Event, c: ConnId)
    requires e.Message? && CanHappen(s, e) && Present(Step(s, e), c)
    ensures Present(s, c) && (Step(s, e).sockets[c].alive <==> e.c == c || s.sockets[c].alive)
  {
    var t := s.sockets[e.c].joined.value.tunnelId;
    var s0 := s.(sockets := s.sockets[e.c := s.sockets[e.c].(alive := true)]);
    assert SameSigns(s0, Step(s, e)) by {
      if t in s.tunnels && e.payload.Text? {
        MobileFrameKeepsSigns(s0, t, e.c, e.payload.frame, e.slow);
        DesktopFrameKeepsSigns(s0, t, e.c, e.payload.frame, e.slow);
      }
    }
  }

  lemma HelloKeepsSigns(s: State, e: Event)
    requires e.First? && CanHappen(s, e)
    ensures SameSigns(s, Step(s, e))
  {
  }

  lemma PlainSigns(s: State, e: Event, c: ConnId)
    requires Present(Step(s, e), c) && e != Heartbeat && !e.Message?
    ensures Sign(s, e, c) || Present(s, c)
    ensures Step(s, e).sockets[c].alive <==> Sign(s, e, c) || (Present(s, c) && s.sockets[c].alive)
  {
    if e.First? && CanHappen(s, e) { HelloKeepsSigns(s, e); }
  }

  lemma StepKeepsSigns(s: State, e: Event, c: ConnId)
    requires Present(Step(s, e), c) && e != Heartbeat
    ensures Sign(s, e, c) || Present(s, c)
    ensures Step(s, e).sockets[c].alive <==> Sign(s, e, c) || (Present(s, c) && s.sockets[c].alive)
  {
    if e.Message? {
      if CanHappen(s, e) { MessageIsASign(s, e, c); }
    } else {
      PlainSigns(s, e, c);
    }
  }

  lemma {:induction false} AliveIffHeard(es: seq<Event>, c: ConnId)
    requires Present(Run(es), c)
    ensures Run(es).sockets[c].alive <==> HeardSinceTick(es, c)
  {
    var before, e := es[..|es| - 1], es[|es| - 1];
    if e == Heartbeat {
      assert Present(Run(before), c);
    } else {
      StepKeepsSigns(Run(before), e, c);
      if Present(Run(before), c) {
        AliveIffHeard(before, c);
      } else {
        assert Sign(Run(before), e, c);
      }
    }
  }

  /** In every run a tick leaves an open socket open exactly if it has shown a sign of life
      since the tick before. */
  lemma TickSparesIffHeard(es: seq<Event>, c: ConnId)
    requires Run(es).IsOpen(c)
    ensures Run(es + [Heartbeat]).IsOpen(c) <==> HeardSinceTick(es, c)
  {
    assert (es + [Heartbeat])[..|es + [Heartbeat]| - 1] == es;
    AliveIffHeard(es, c);
  }

  /** A tick opens and closes nothing, and changes no tunnel, notice or history: sockets
      only begin to close. */
  lemma TickTouchesSocketsOnly(s: State)
    ensures var s' := Step(s, Heartbeat);
            && s'.tunnels == s.tunnels && s'.told == s.told && s'.history == s.history && s'.sockets.Keys == s.sockets.Keys
            && forall c <- s.sockets ::
                 && s'.sockets[c].joined == s.sockets[c].joined && s'.sockets[c].greeted == s.sockets[c].greeted
                 && (s'.sockets[c].phase == s.sockets[c].phase || (s.sockets[c].phase.Open? && s'.sockets[c].phase.Closing?))
  {
  }

  predicate NoSign(es: seq<Event>, c: ConnId) {
    forall e <- es :: e != Connect(c) && e != Pong(c) && (e.Message? ==> e.c != c)
  }

  lemma {:induction false} NotHeard(es: seq<Event>, silence: seq<Event>, c: ConnId)
    requires NoSign(silence, c)
    ensures !HeardSinceTick(es + [Heartbeat] + silence, c)
  {
    var all := es + [Heartbeat] + silence;
    if silence != [] {
      var k := |silence| - 1;
      assert all[..|all| - 1] == es + [Heartbeat] + silence[..k] && all[|all| - 1] == silence[k];
      assert forall e <- silence[..k] :: e in silence;
      NotHeard(es, silence[..k], c);
    }
  }

  /** Nothing heard from one tick to the next: the socket is not open after the second. */
  lemma SilentSocketIsClosed(es: seq<Event>, silence: seq<Event>, c: ConnId)
    requires NoSign(silence, c)
    ensures !Run(es + [Heartbeat] + silence + [Heartbeat]).IsOpen(c)
  {
    var all := es + [Heartbeat] + silence;
    assert (all + [Heartbeat])[..|all + [Heartbeat]| - 1] == all;
    NotHeard(es, silence, c);
    if Run(all).IsOpen(c) {
      TickSparesIffHeard(all, c);
    } else {
      TickTouchesSocketsOnly(Run(all));
    }
  }
}
