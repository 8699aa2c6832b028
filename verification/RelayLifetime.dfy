/** When a tunnel comes and goes: the close handler fails for the last mobile of a tunnel
    without a desktop, and leaves that tunnel behind empty. Whether the process survives the
    failure is not the relay's to say, so runs may go on after it. */
module RelayLifetime {
  import opened Wrappers
  import opened Relay
  import opened RelayMembership

  /** Stored although nobody is left in it. */
  predicate Abandoned(s: State, t: TunnelId) { t in s.tunnels && s.tunnels[t].Empty() }

  /** The handler of this event throws, as the record of its step says. */
  predicate HandlerThrows(s: State, e: Event) {
    var h := Step(s, e).history;
    |h| > |s.history| && h[|s.history|].MobileLeft? && h[|s.history|].threw
  }

  /** The close event of the only mobile of a tunnel without a desktop. */
  predicate LastMobileCloses(s: State, e: Event, t: TunnelId) {
    && e.CloseEvent? && CanHappen(s, e) && s.sockets[e.c].joined.Some? && s.sockets[e.c].joined.value.role.Mobile?
    && s.sockets[e.c].joined.value.tunnelId == t
    && t in s.tunnels && s.tunnels[t].mobiles == {e.c} && s.tunnels[t].desktop.None?
  }

  /** A hello of tunnel `t` that is accepted. */
  predicate Accepts(s: State, e: Event, t: TunnelId) {
    && e.First? && CanHappen(s, e) && e.hello.Some? && e.hello.value.tunnelId == t
    && (t in s.tunnels ==> s.tunnels[t].hash == e.hello.value.hash)
  }

  lemma MessageNeverThrows(s: State, e: Event)
    requires e.Message?
    ensures !HandlerThrows(s, e)
  {
  }

  lemma OnlyCloseThrows(s: State, e: Event)
    requires HandlerThrows(s, e)
    ensures e.CloseEvent? && CanHappen(s, e) && IsMember(s, e.c)
  {
    if e.Message? { MessageNeverThrows(s, e); }
  }

  lemma CloseThrowsIff(s: State, c: ConnId)
    requires CanHappen(s, CloseEvent(c))
    ensures HandlerThrows(s, CloseEvent(c)) <==> IsMember(s, c) && LastMobileCloses(s, CloseEvent(c), s.sockets[c].joined.value.tunnelId)
  {
  }

  /** In every reachable state an event's handler throws exactly if it closes the last
      mobile of a tunnel that has no desktop. */
  lemma HandlerThrowsIffLastMobile(es: seq<Event>, e: Event)
    ensures HandlerThrows(Run(es), e) <==> exists t :: LastMobileCloses(Run(es), e, t)
  {
    var s := Run(es);
    if HandlerThrows(s, e) {
      OnlyCloseThrows(s, e);
      CloseThrowsIff(s, e.c);
    }
    if t :| LastMobileCloses(s, e, t) {
      CloseThrowsIff(s, e.c);
    }
  }

  // ------------------------------------------------------------ abandoned tunnels

  /** Members and their tunnels are as they were. */
  ghost predicate SameMembers(s: State, s': State) {
    && s'.tunnels.Keys == s.tunnels.Keys
    && forall t <- s.tunnels :: s'.tunnels[t].desktop == s.tunnels[t].desktop && s'.tunnels[t].mobiles == s.tunnels[t].mobiles
  }

  lemma MessageKeepsMembers(s: State, e: Event)
    requires e.Message? && CanHappen(s, e)
    ensures SameMembers(s, Step(s, e))
  {
  }

  lemma FirstAbandons(s: State, e: Event, t: TunnelId)
    requires e.First? && CanHappen(s, e)
    ensures Abandoned(Step(s, e), t) <==> Abandoned(s, t) && !Accepts(s, e, t)
  {
  }

  lemma CloseAbandons(s: State, e: Event, t: TunnelId)
    requires Membership(s) && e.CloseEvent? && CanHappen(s, e)
    ensures Abandoned(Step(s, e), t) <==> LastMobileCloses(s, e, t) || Abandoned(s, t)
  {
    if IsMember(s, e.c) {
      assert TunnelOk(s, s.sockets[e.c].joined.value.tunnelId);
    }
  }

  lemma StepAbandons(s: State, e: Event, t: TunnelId)
    requires Membership(s)
    ensures Abandoned(Step(s, e), t) <==> LastMobileCloses(s, e, t) || (Abandoned(s, t) && !Accepts(s, e, t))
  {
    if CanHappen(s, e) {
      if e.Message? { MessageKeepsMembers(s, e); }
      else if e.First? { FirstAbandons(s, e, t); }
      else if e.CloseEvent? { CloseAbandons(s, e, t); }
    }
  }

  /** The last mobile of tunnel `t` left it without a desktop, and nobody has joined since. */
  predicate LeftBehind(es: seq<Event>, t: TunnelId) {
    if es == [] then false
    else
      var before, e := es[..|es| - 1], es[|es| - 1];
      LastMobileCloses(Run(before), e, t) || (LeftBehind(before, t) && !Accepts(Run(before), e, t))
  }

  /** In every run a stored tunnel is empty exactly if its last mobile left it without a
      desktop and nobody has joined it since. */
  lemma {:induction false} StoredTunnelEmptyIff(es: seq<Event>, t: TunnelId)
    ensures Abandoned(Run(es), t) <==> LeftBehind(es, t)
  {
    if es != [] {
      var before := es[..|es| - 1];
      StoredTunnelEmptyIff(before, t);
      RunKeepsMembership(before);
      StepAbandons(Run(before), es[|es| - 1], t);
    }
  }

  ghost predicate NeverThrew(es: seq<Event>) {
    forall k | 0 <= k < |es| :: !HandlerThrows(Run(es[..k]), es[k])
  }

  lemma {:induction false} NeverThrewLeavesNone(es: seq<Event>, t: TunnelId)
    requires NeverThrew(es)
    ensures !LeftBehind(es, t)
  {
    if es != [] {
      var k := |es| - 1;
      assert NeverThrew(es[..k]) by {
        forall j | 0 <= j < k ensures !HandlerThrows(Run(es[..k][..j]), es[..k][j]) {
          assert es[..k][..j] == es[..j] && !HandlerThrows(Run(es[..j]), es[j]);
        }
      }
      NeverThrewLeavesNone(es[..k], t);
      assert !HandlerThrows(Run(es[..k]), es[k]);
      HandlerThrowsIffLastMobile(es[..k], es[k]);
    }
  }

  /** Until a handler throws no stored tunnel is empty; and the event at which one is empty
      for the first time is exactly the one whose handler throws. */
  lemma NoEmptyTunnelUntilThrow(es: seq<Event>, e: Event)
    requires NeverThrew(es)
    ensures forall t :: !Abandoned(Run(es), t)
    ensures (exists t :: Abandoned(Step(Run(es), e), t)) <==> HandlerThrows(Run(es), e)
  {
    forall t ensures !Abandoned(Run(es), t) {
      NeverThrewLeavesNone(es, t);
      StoredTunnelEmptyIff(es, t);
    }
    RunKeepsMembership(es);
    HandlerThrowsIffLastMobile(es, e);
    forall t { StepAbandons(Run(es), e, t); }
  }

  lemma RunExtends(es: seq<Event>, e: Event)
    ensures Run(es + [e]) == Step(Run(es), e)
  {
    assert (es + [e])[..|es + [e]| - 1] == es;
  }

  /** The shortest such run: a mobile comes, alone, and goes. */
  lemma LoneMobileLeavesTunnelBehind()
    ensures var es := [Connect(0), First(0, Some(Hello(Mobile, "t", "h")))];
            HandlerThrows(Run(es), CloseEvent(0)) && Abandoned(Run(es + [CloseEvent(0)]), "t")
  {
    var a, b := Connect(0), First(0, Some(Hello(Mobile, "t", "h")));
    RunExtends([], a);
    RunExtends([a], b);
    assert [] + [a] == [a] && [a] + [b] == [a, b];
    var s := Run([a, b]);
    assert s.tunnels["t"].mobiles == {0} by { assert {} + {0 as ConnId} == {0}; }
    assert LastMobileCloses(s, CloseEvent(0), "t");
    HandlerThrowsIffLastMobile([a, b], CloseEvent(0));
    RunExtends([a, b], CloseEvent(0));
    RunKeepsMembership([a, b]);
    StepAbandons(s, CloseEvent(0), "t");
  }
}
