/** Who owns a tunnel id over time. The credential of a tunnel never changes while it is
    stored, but once deleted its id may come back under another one: a replaced desktop that
    is still sending then serves strangers, and attachments filed under the id are served to
    the new owner. */
module RelayOwnership {
  import opened Wrappers
  import opened Relay
  import opened RelayRouting
  import opened RelayLifetime

  lemma StepKeepsHash(s: State, e: Event, t: TunnelId)
    requires t in s.tunnels && t in Step(s, e).tunnels
    ensures Step(s, e).tunnels[t].hash == s.tunnels[t].hash
  {
    if e.Message? && CanHappen(s, e) { MessageKeepsHash(s, e, t); }
  }

  lemma MessageKeepsHash(s: State, e: Event, t: TunnelId)
    requires e.Message? && CanHappen(s, e) && t in s.tunnels
    ensures t in Step(s, e).tunnels && Step(s, e).tunnels[t].hash == s.tunnels[t].hash
  {
  }

  /** Tunnel `t` is stored all along a run. */
  ghost predicate StoredThroughout(s: State, es: seq<Event>, t: TunnelId) {
    forall k | 0 <= k <= |es| :: t in RunFrom(s, es[..k]).tunnels
  }

  /** A download, a delete or a hello for `t` after the run needs the same credential as one
      before it, if the tunnel was never deleted in between. */
  lemma {:induction false} CredentialFixedWhileStored(s: State, es: seq<Event>, t: TunnelId)
    requires StoredThroughout(s, es, t)
    ensures t in s.tunnels && t in RunFrom(s, es).tunnels && RunFrom(s, es).tunnels[t].hash == s.tunnels[t].hash
  {
    assert es[..0] == [] && es[..|es|] == es;
    assert t in RunFrom(s, es[..0]).tunnels && t in RunFrom(s, es[..|es|]).tunnels;
    if es != [] {
      var before := es[..|es| - 1];
      assert StoredThroughout(s, before, t) by {
        forall k | 0 <= k <= |before| ensures t in RunFrom(s, before[..k]).tunnels { assert before[..k] == es[..k]; }
      }
      CredentialFixedWhileStored(s, before, t);
      StepKeepsHash(RunFrom(s, before), es[|es| - 1], t);
    }
  }

  // --------------------------------------------------------------- the other half

  const OWNER := Hello(Desktop, "t", "h1")
  const STRANGER := Hello(Mobile, "t", "h2")

  /** Two desktops of one owner, the second replacing the first; the second goes. */
  function Replaced(): seq<Event> {
    [Connect(0), First(0, Some(OWNER)), Connect(1), First(1, Some(OWNER)), CloseEvent(1)]
  }

  lemma OwnerJoins()
    ensures var s := Run([Connect(0), First(0, Some(OWNER))]);
            && s.tunnels == map["t" := Tunnel("h1", Some(0), {}, map[])]
            && s.sockets == map[0 := Socket(Open, true, Some(OWNER), true)]
  {
    var a, b := Connect(0), First(0, Some(OWNER));
    RunExtends([], a);
    RunExtends([a], b);
    assert [] + [a] == [a] && [a] + [b] == [a, b];
    assert Run([a]).sockets == map[0 := Socket(Open, false, None, true)];
  }

  lemma OwnerReplaced()
    ensures var s := Run([Connect(0), First(0, Some(OWNER)), Connect(1), First(1, Some(OWNER))]);
            && s.tunnels == map["t" := Tunnel("h1", Some(1), {}, map[])]
            && s.sockets == map[0 := Socket(Closing, true, Some(OWNER), true), 1 := Socket(Open, true, Some(OWNER), true)]
  {
    var two := [Connect(0), First(0, Some(OWNER))];
    OwnerJoins();
    RunExtends(two, Connect(1));
    RunExtends(two + [Connect(1)], First(1, Some(OWNER)));
    var s := Run(two + [Connect(1)]);
    assert s.sockets == map[0 := Socket(Open, true, Some(OWNER), true), 1 := Socket(Open, false, None, true)];
    assert two + [Connect(1)] + [First(1, Some(OWNER))] == [Connect(0), First(0, Some(OWNER)), Connect(1), First(1, Some(OWNER))];
  }

  lemma TunnelDeleted()
    ensures Run(Replaced()).tunnels == map[]
    ensures Run(Replaced()).sockets == map[0 := Socket(Closing, true, Some(OWNER), true), 1 := Socket(Closed, true, Some(OWNER), true)]
  {
    var four := [Connect(0), First(0, Some(OWNER)), Connect(1), First(1, Some(OWNER))];
    OwnerReplaced();
    RunExtends(four, CloseEvent(1));
    assert four + [CloseEvent(1)] == Replaced();
  }

  function Reopened(): seq<Event> { Replaced() + [Connect(2), First(2, Some(STRANGER))] }

  lemma StrangerJoins()
    ensures var s := Run(Reopened());
            && "t" in s.tunnels && s.tunnels["t"] == Tunnel("h2", None, {2}, map[]) && s.sockets.Keys == {0, 1, 2}
            && s.sockets[0] == Socket(Closing, true, Some(OWNER), true) && s.sockets[2] == Socket(Open, true, Some(STRANGER), true)
  {
    TunnelDeleted();
    RunExtends(Replaced(), Connect(2));
    RunExtends(Replaced() + [Connect(2)], First(2, Some(STRANGER)));
    assert Replaced() + [Connect(2)] + [First(2, Some(STRANGER))] == Reopened();
    assert {} + {2 as ConnId} == {2};
  }

  /** A frame of the replaced desktop of the first owner is handed to the second owner's
      mobile. */
  lemma ReplacedDesktopServesStranger(frame: Frame)
    requires !frame.Response?
    ensures var s := Run(Reopened());
            && CanHappen(s, Message(0, Text(frame), {})) && !SameCredential(s, 0, 2)
            && Step(s, Message(0, Text(frame), {})).history == s.history + [Broadcast("t", 0, {2}, frame)]
  {
    StrangerJoins();
    var s := Run(Reopened());
    var s0 := s.(sockets := s.sockets[0 := s.sockets[0].(alive := true)]);
    assert s0.OpenAmong({2}) == {2};
    FromDesktopTable(s0, "t", 0, frame, {}, "t", "");
    assert Recipients(s0, "t", frame, {}) == {2};
  }

  /** A tunnel id that was the first owner's is now the second's. */
  lemma IdPassesToStranger()
    ensures var one := Run([Connect(0), First(0, Some(OWNER))]); var two := Run(Reopened());
            "t" in one.tunnels && "t" in two.tunnels && one.tunnels["t"].hash != two.tunnels["t"].hash
  {
    OwnerJoins();
    StrangerJoins();
  }
}
