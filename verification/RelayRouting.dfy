/** Where responses go, over whole runs of the relay: an independent reading of the wire
    history says who may still get the answer to a request, and the route table always
    agrees with it. */
module RelayRouting {
  import opened Wrappers
  import opened Relay
  import opened RelayMembership

  /** The mobile that last had request `id` forwarded in tunnel `t`, unless since then the
      response was taken, or that mobile or the current desktop left. */
  function LiveRequester(h: seq<Act>, t: TunnelId, id: ReqId): Option<ConnId> {
    if h == [] then None else
    var before := LiveRequester(h[..|h| - 1], t, id);
    match h[|h| - 1]
    case Forwarded(u, from, _, frame) => if u == t && frame == Request(id) then Some(from) else before
    case Answered(u, i, _, _) => if u == t && i == id then None else before
    case Broadcast(_, _, _, _) => before
    case DesktopLeft(u) => if u == t then None else before
    case MobileLeft(u, m, _) => if u == t && before == Some(m) then None else before
  }

  function RouteOf(s: State, t: TunnelId, id: ReqId): Option<ConnId> {
    if t in s.tunnels && id in s.tunnels[t].routes then Some(s.tunnels[t].routes[id]) else None
  }

  ghost predicate RoutesAgree(s: State) {
    forall t: TunnelId, id: ReqId :: RouteOf(s, t, id) == LiveRequester(s.history, t, id)
  }

  lemma LiveAfter(h: seq<Act>, a: Act, t: TunnelId, id: ReqId)
    ensures LiveRequester(h + [a], t, id) ==
            var before := LiveRequester(h, t, id);
            match a
            case Forwarded(u, from, _, frame) => if u == t && frame == Request(id) then Some(from) else before
            case Answered(u, i, _, _) => if u == t && i == id then None else before
            case Broadcast(_, _, _, _) => before
            case DesktopLeft(u) => if u == t then None else before
            case MobileLeft(u, m, _) => if u == t && before == Some(m) then None else before
  {
    assert (h + [a])[..|h + [a]| - 1] == h;
  }

  lemma JoinKeepsRoutes(s: State, c: ConnId, h: Hello)
    requires c in s.sockets
    ensures Join(s, c, h).history == s.history
    ensures forall t: TunnelId, id: ReqId :: RouteOf(Join(s, c, h), t, id) == RouteOf(s, t, id)
  {
  }

  /** A mobile's frame is handed to the desktop unless that is closed or clogged. */
  predicate HandsOver(s: State, t: TunnelId, slow: set<ConnId>)
    requires t in s.tunnels
  {
    s.DesktopOpen(t) && s.tunnels[t].desktop.value !in slow
  }

  lemma FromMobileTable(s: State, t: TunnelId, c: ConnId, frame: Frame, slow: set<ConnId>, u: TunnelId, id: ReqId)
    requires t in s.tunnels
    ensures var s' := FromMobile(s, t, c, frame, slow);
            && RouteOf(s', u, id) == (if HandsOver(s, t, slow) && u == t && frame == Request(id) then Some(c) else RouteOf(s, u, id))
            && s'.history == if HandsOver(s, t, slow) then s.history + [Forwarded(t, c, s.tunnels[t].desktop.value, frame)] else s.history
  {
  }

  lemma FromMobileRoutes(s: State, t: TunnelId, c: ConnId, frame: Frame, slow: set<ConnId>, u: TunnelId, id: ReqId)
    requires t in s.tunnels && RouteOf(s, u, id) == LiveRequester(s.history, u, id)
    ensures var s' := FromMobile(s, t, c, frame, slow); RouteOf(s', u, id) == LiveRequester(s'.history, u, id)
  {
    FromMobileTable(s, t, c, frame, slow, u, id);
    if HandsOver(s, t, slow) {
      LiveAfter(s.history, Forwarded(t, c, s.tunnels[t].desktop.value, frame), u, id);
    }
  }

  function TakenBy(t: TunnelId, frame: Frame, from: ConnId, to: set<ConnId>): Act {
    if frame.Response? then Answered(t, frame.id, from, to) else Broadcast(t, from, to, frame)
  }

  lemma FromDesktopTable(s: State, t: TunnelId, c: ConnId, frame: Frame, slow: set<ConnId>, u: TunnelId, id: ReqId)
    requires t in s.tunnels
    ensures var s' := FromDesktop(s, t, c, frame, slow);
            && RouteOf(s', u, id) == (if u == t && frame == Response(id) then None else RouteOf(s, u, id))
            && |s'.history| > 0 && s'.history == s.history + [TakenBy(t, frame, c, Recipients(s, t, frame, slow))]
  {
  }

  /** Who a desktop's frame is handed to. */
  function Recipients(s: State, t: TunnelId, frame: Frame, slow: set<ConnId>): set<ConnId>
    requires t in s.tunnels
  {
    (if frame.Response? then Requester(s, t, frame.id) else s.OpenAmong(s.tunnels[t].mobiles)) - slow
  }

  lemma FromDesktopRoutes(s: State, t: TunnelId, c: ConnId, frame: Frame, slow: set<ConnId>, u: TunnelId, id: ReqId)
    requires t in s.tunnels && RouteOf(s, u, id) == LiveRequester(s.history, u, id)
    ensures var s' := FromDesktop(s, t, c, frame, slow); RouteOf(s', u, id) == LiveRequester(s'.history, u, id)
  {
    FromDesktopTable(s, t, c, frame, slow, u, id);
    LiveAfter(s.history, TakenBy(t, frame, c, Recipients(s, t, frame, slow)), u, id);
  }

  /** The record of a member's departure. */
  function Departure(s: State, h: Hello, c: ConnId): Act
    requires h.tunnelId in s.tunnels
  {
    if h.role.Desktop? then DesktopLeft(h.tunnelId) else MobileLeft(h.tunnelId, c, Throws(s.tunnels[h.tunnelId], h.role, c))
  }

  lemma CloseTable(s: State, c: ConnId, u: TunnelId, id: ReqId)
    requires Membership(s) && CanHappen(s, CloseEvent(c)) && IsMember(s, c)
    ensures var h := s.sockets[c].joined.value; var s' := OnClose(s, c);
            && RouteOf(s', u, id) == (if u != h.tunnelId then RouteOf(s, u, id)
                                      else if h.role.Desktop? || RouteOf(s, u, id) == Some(c) then None
                                      else RouteOf(s, u, id))
            && s'.history == s.history + [Departure(s, h, c)]
  {
    var h := s.sockets[c].joined.value;
    assert TunnelOk(s, h.tunnelId);
    var left := s.tunnels[h.tunnelId].Leave(h.role, c);
    assert left.Empty() ==> left.routes == map[];
  }

  lemma CloseRoutes(s: State, c: ConnId, u: TunnelId, id: ReqId)
    requires Membership(s) && CanHappen(s, CloseEvent(c))
    requires RouteOf(s, u, id) == LiveRequester(s.history, u, id)
    ensures var s' := OnClose(s, c); RouteOf(s', u, id) == LiveRequester(s'.history, u, id)
  {
    if IsMember(s, c) {
      var h := s.sockets[c].joined.value;
      CloseTable(s, c, u, id);
      LiveAfter(s.history, Departure(s, h, c), u, id);
    }
  }

  lemma StepKeepsRoutes(s: State, e: Event, u: TunnelId, id: ReqId)
    requires Membership(s) && RouteOf(s, u, id) == LiveRequester(s.history, u, id)
    ensures RouteOf(Step(s, e), u, id) == LiveRequester(Step(s, e).history, u, id)
  {
    if CanHappen(s, e) {
      match e
      case First(c, hello) =>
        var s0 := s.(sockets := s.sockets[c := s.sockets[c].(greeted := true)]);
        if hello.Some? { JoinKeepsRoutes(s0, c, hello.value); }
      case Message(c, payload, slow) =>
        var t := s.sockets[c].joined.value.tunnelId;
        var s0 := s.(sockets := s.sockets[c := s.sockets[c].(alive := true)]);
        if t in s.tunnels && payload.Text? {
          FromMobileRoutes(s0, t, c, payload.frame, slow, u, id);
          FromDesktopRoutes(s0, t, c, payload.frame, slow, u, id);
        }
      case CloseEvent(c) => CloseRoutes(s, c, u, id);
      case _ =>
    }
  }

  /** In every reachable state the route table says exactly what the history says. */
  lemma {:induction false} RouteTableIsLiveRequester(es: seq<Event>)
    ensures RoutesAgree(Run(es))
  {
    if es != [] {
      var before := es[..|es| - 1];
      RouteTableIsLiveRequester(before);
      RunKeepsMembership(before);
      forall t: TunnelId, id: ReqId ensures RouteOf(Run(es), t, id) == LiveRequester(Run(es).history, t, id) {
        StepKeepsRoutes(Run(before), es[|es| - 1], t, id);
      }
    }
  }

  // -------------------------------------------------------- delivery of responses

  lemma AliveMarkIsQuiet(s: State, c: ConnId, t: TunnelId, id: ReqId)
    requires c in s.sockets
    ensures var s0 := s.(sockets := s.sockets[c := s.sockets[c].(alive := true)]);
            s0.history == s.history && RouteOf(s0, t, id) == RouteOf(s, t, id) && forall m: ConnId :: s0.IsOpen(m) == s.IsOpen(m)
  {
  }

  lemma ResponseRecipients(s: State, t: TunnelId, id: ReqId, slow: set<ConnId>, m: ConnId)
    requires t in s.tunnels && TunnelOk(s, t)
    ensures m in Recipients(s, t, Response(id), slow) <==> RouteOf(s, t, id) == Some(m) && s.IsOpen(m) && m !in slow
  {
  }

  /** What a desktop's response does, given that the route table is right. */
  lemma ResponseDelivered(s: State, t: TunnelId, c: ConnId, id: ReqId, slow: set<ConnId>)
    requires t in s.tunnels && TunnelOk(s, t) && RouteOf(s, t, id) == LiveRequester(s.history, t, id)
    ensures var s' := FromDesktop(s, t, c, Response(id), slow); var to := Recipients(s, t, Response(id), slow);
            && s'.history == s.history + [Answered(t, id, c, to)]
            && (forall m: ConnId :: m in to <==> LiveRequester(s.history, t, id) == Some(m) && s.IsOpen(m) && m !in slow)
            && LiveRequester(s'.history, t, id) == None
  {
    FromDesktopTable(s, t, c, Response(id), slow, t, id);
    var to := Recipients(s, t, Response(id), slow);
    LiveAfter(s.history, Answered(t, id, c, to), t, id);
    forall m: ConnId ensures m in to <==> LiveRequester(s.history, t, id) == Some(m) && s.IsOpen(m) && m !in slow {
      ResponseRecipients(s, t, id, slow, m);
    }
  }

  /** A desktop's response reaches exactly the live requester, if its socket is open and
      not clogged, and nobody otherwise; and the request is no longer live after it. */
  lemma ResponseReachesLiveRequester(es: seq<Event>, c: ConnId, id: ReqId, slow: set<ConnId>)
    requires var s := Run(es); CanHappen(s, Message(c, Text(Response(id)), slow))
    requires var h := Run(es).sockets[c].joined.value; h.role.Desktop? && h.tunnelId in Run(es).tunnels
    ensures var s := Run(es); var s' := Step(s, Message(c, Text(Response(id)), slow)); var t := s.sockets[c].joined.value.tunnelId;
            exists to: set<ConnId> ::
              && s'.history == s.history + [Answered(t, id, c, to)]
              && (forall m: ConnId :: m in to <==> LiveRequester(s.history, t, id) == Some(m) && s.IsOpen(m) && m !in slow)
              && LiveRequester(s'.history, t, id) == None
  {
    var s := Run(es);
    var t := s.sockets[c].joined.value.tunnelId;
    RouteTableIsLiveRequester(es);
    RunKeepsMembership(es);
    assert TunnelOk(s, t) && RouteOf(s, t, id) == LiveRequester(s.history, t, id);
    var s0 := s.(sockets := s.sockets[c := s.sockets[c].(alive := true)]);
    AliveMarkIsQuiet(s, c, t, id);
    assert TunnelOk(s0, t);
    ResponseDelivered(s0, t, c, id, slow);
  }

  /** Every delivered response went to the requester that was live at that moment. */
  ghost predicate AnswersWereLive(h: seq<Act>) {
    forall k | 0 <= k < |h| && h[k].Answered? :: AnswerWasLive(h, k)
  }

  ghost predicate AnswerWasLive(h: seq<Act>, k: nat)
    requires k < |h| && h[k].Answered?
  {
    forall m <- h[k].to :: LiveRequester(h[..k], h[k].tunnel, h[k].id) == Some(m)
  }

  lemma AnswersExtend(h: seq<Act>, a: Act)
    requires AnswersWereLive(h)
    requires a.Answered? ==> forall m <- a.to :: LiveRequester(h, a.tunnel, a.id) == Some(m)
    ensures AnswersWereLive(h + [a])
  {
    var h' := h + [a];
    forall k | 0 <= k < |h'| && h'[k].Answered? ensures AnswerWasLive(h', k) {
      assert h'[..k] == h[..k];
      if k < |h| { assert AnswerWasLive(h, k); } else { assert h[..k] == h; }
    }
  }

  lemma FromDesktopAnswersLive(s: State, t: TunnelId, c: ConnId, frame: Frame, slow: set<ConnId>)
    requires t in s.tunnels && AnswersWereLive(s.history)
    requires frame.Response? ==> RouteOf(s, t, frame.id) == LiveRequester(s.history, t, frame.id)
    ensures AnswersWereLive(FromDesktop(s, t, c, frame, slow).history)
  {
    FromDesktopTable(s, t, c, frame, slow, t, "");
    AnswersExtend(s.history, TakenBy(t, frame, c, Recipients(s, t, frame, slow)));
  }

  lemma StepAnswersLive(s: State, e: Event)
    requires Membership(s) && RoutesAgree(s) && AnswersWereLive(s.history)
    ensures AnswersWereLive(Step(s, e).history)
  {
    if CanHappen(s, e) {
      match e
      case First(c, hello) =>
        if hello.Some? { JoinKeepsRoutes(s.(sockets := s.sockets[c := s.sockets[c].(greeted := true)]), c, hello.value); }
      case Message(c, payload, slow) =>
        var h := s.sockets[c].joined.value;
        var s0 := s.(sockets := s.sockets[c := s.sockets[c].(alive := true)]);
        if h.tunnelId in s.tunnels && payload.Text? {
          if h.role.Mobile? {
            if s.DesktopOpen(h.tunnelId) { AnswersExtend(s.history, Forwarded(h.tunnelId, c, s.tunnels[h.tunnelId].desktop.value, payload.frame)); }
          } else {
            if payload.frame.Response? { assert RouteOf(s0, h.tunnelId, payload.frame.id) == RouteOf(s, h.tunnelId, payload.frame.id); }
            FromDesktopAnswersLive(s0, h.tunnelId, c, payload.frame, slow);
          }
        }
      case CloseEvent(c) =>
        if IsMember(s, c) {
          CloseTable(s, c, "", "");
          var h := s.sockets[c].joined.value;
          AnswersExtend(s.history, Departure(s, h, c));
        }
      case _ =>
    }
  }

  lemma {:induction false} RunAnswersLive(es: seq<Event>)
    ensures AnswersWereLive(Run(es).history)
  {
    if es != [] {
      var before := es[..|es| - 1];
      RunAnswersLive(before);
      RunKeepsMembership(before);
      RouteTableIsLiveRequester(before);
      StepAnswersLive(Run(before), es[|es| - 1]);
    }
  }

  /** How often request `id` was forwarded, and how often a response to it was delivered. */
  function Requests(h: seq<Act>, t: TunnelId, id: ReqId): nat {
    if h == [] then 0 else
    var a := h[|h| - 1];
    Requests(h[..|h| - 1], t, id) + if a.Forwarded? && a.tunnel == t && a.frame == Request(id) then 1 else 0
  }

  function Deliveries(h: seq<Act>, t: TunnelId, id: ReqId): nat {
    if h == [] then 0 else
    var a := h[|h| - 1];
    Deliveries(h[..|h| - 1], t, id) + if a.Answered? && a.tunnel == t && a.id == id then |a.to| else 0
  }

  lemma AtMostOne(to: set<ConnId>, r: Option<ConnId>)
    requires forall m <- to :: r == Some(m)
    ensures |to| <= (if r.Some? then 1 else 0)
  {
    if m :| m in to { assert to == {m}; }
  }

  lemma {:induction false} DeliveriesWithinRequests(h: seq<Act>, t: TunnelId, id: ReqId)
    requires AnswersWereLive(h)
    ensures Deliveries(h, t, id) + (if LiveRequester(h, t, id).Some? then 1 else 0) <= Requests(h, t, id)
  {
    if h != [] {
      var k := |h| - 1;
      assert AnswersWereLive(h[..k]) by {
        forall j | 0 <= j < k && h[j].Answered? ensures AnswerWasLive(h[..k], j) { assert AnswerWasLive(h, j); assert h[..k][..j] == h[..j]; }
      }
      DeliveriesWithinRequests(h[..k], t, id);
      if h[k].Answered? && h[k].tunnel == t && h[k].id == id {
        assert AnswerWasLive(h, k);
        AtMostOne(h[k].to, LiveRequester(h[..k], t, id));
      }
    }
  }

  /** Response conservation: per tunnel and request id, never more deliveries than requests
      forwarded, through replacement, closing, deletion and re-creation of the tunnel. */
  lemma ResponseConservation(es: seq<Event>, t: TunnelId, id: ReqId)
    ensures Deliveries(Run(es).history, t, id) <= Requests(Run(es).history, t, id)
  {
    RunAnswersLive(es);
    DeliveriesWithinRequests(Run(es).history, t, id);
  }

  // ------------------------------------------------------------ credential agreement

  predicate SameCredential(s: State, a: ConnId, b: ConnId) {
    && a in s.sockets && b in s.sockets && s.sockets[a].joined.Some? && s.sockets[b].joined.Some?
    && s.sockets[a].joined.value.tunnelId == s.sockets[b].joined.value.tunnelId
    && s.sockets[a].joined.value.hash == s.sockets[b].joined.value.hash
  }

  /** A mobile's frame only ever goes to a desktop of its own tunnel and credential. */
  lemma MobileFrameStaysWithCredential(es: seq<Event>, c: ConnId, frame: Frame, slow: set<ConnId>)
    requires CanHappen(Run(es), Message(c, Text(frame), slow)) && Run(es).sockets[c].joined.value.role.Mobile?
    ensures var s := Run(es); var s' := Step(s, Message(c, Text(frame), slow));
            s'.history == s.history
            || exists d: ConnId :: s'.history == s.history + [Forwarded(s.sockets[c].joined.value.tunnelId, c, d, frame)]
                 && s.IsOpen(d) && SameCredential(s, c, d) && s.tunnels[s.sockets[c].joined.value.tunnelId].desktop == Some(d)
  {
    var s := Run(es);
    RunKeepsMembership(es);
    var t := s.sockets[c].joined.value.tunnelId;
    assert TunnelOk(s, t);
  }

  /** A desktop's frame, current or replaced, reaches mobiles of its own credential exactly
      if the tunnel of its id still has that credential. */
  lemma DesktopFrameStaysWithCredential(es: seq<Event>, c: ConnId, frame: Frame, slow: set<ConnId>, m: ConnId)
    requires c in Run(es).sockets && Run(es).sockets[c].joined.Some? && Run(es).sockets[c].joined.value.role.Desktop?
    requires Run(es).sockets[c].joined.value.tunnelId in Run(es).tunnels
    requires m in Recipients(Run(es), Run(es).sockets[c].joined.value.tunnelId, frame, slow)
    ensures var s := Run(es); var h := s.sockets[c].joined.value;
            SameCredential(s, c, m) <==> s.tunnels[h.tunnelId].hash == h.hash
  {
    RunKeepsMembership(es);
    assert TunnelOk(Run(es), Run(es).sockets[c].joined.value.tunnelId);
  }

  /** The current desktop's tunnel always has it, so its frames never leave the credential. */
  lemma CurrentDesktopHasTheCredential(es: seq<Event>, c: ConnId)
    requires c in Run(es).sockets && IsMember(Run(es), c)
    ensures var h := Run(es).sockets[c].joined.value; Run(es).tunnels[h.tunnelId].hash == h.hash
  {
    RunKeepsMembership(es);
    assert TunnelOk(Run(es), Run(es).sockets[c].joined.value.tunnelId);
  }
}
