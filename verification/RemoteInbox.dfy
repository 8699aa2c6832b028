/** Holding events back until the device identity is known amounts to filtering them
    directly, and never hands an event to the wrong device. */
module RemoteInbox {
  import opened RemoteClient

  // ------------------------------------------------------------------ filtering

  datatype Pick = TargetedOnes | PlainOnes | For(device: DeviceId)

  predicate Picks(pick: Pick, e: RemoteEvent) {
    match pick
    case TargetedOnes => Targeted(e)
    case PlainOnes => !Targeted(e)
    case For(d) => e.target == d
  }

  function Filter(es: seq<RemoteEvent>, pick: Pick): seq<RemoteEvent> {
    if es == [] then []
    else if Picks(pick, es[|es| - 1]) then Filter(es[..|es| - 1], pick) + [es[|es| - 1]]
    else Filter(es[..|es| - 1], pick)
  }

  function OnlyTargeted(es: seq<RemoteEvent>): seq<RemoteEvent> { Filter(es, TargetedOnes) }
  function OnlyPlain(es: seq<RemoteEvent>): seq<RemoteEvent> { Filter(es, PlainOnes) }
  function AddressedTo(es: seq<RemoteEvent>, d: DeviceId): seq<RemoteEvent> { Filter(es, For(d)) }

  function Events(ds: seq<Delivery>): seq<RemoteEvent> {
    seq(|ds|, i requires 0 <= i < |ds| => ds[i].event)
  }

  lemma FilterAppend(es: seq<RemoteEvent>, e: RemoteEvent, pick: Pick)
    ensures Filter(es + [e], pick) == if Picks(pick, e) then Filter(es, pick) + [e] else Filter(es, pick)
  {
    assert (es + [e])[..|es + [e]| - 1] == es;
  }

  lemma {:induction false} FilterConcat(a: seq<RemoteEvent>, b: seq<RemoteEvent>, pick: Pick)
    ensures Filter(a + b, pick) == Filter(a, pick) + Filter(b, pick)
  {
    if b == [] {
      assert a + b == a;
    } else {
      var b', e := b[..|b| - 1], b[|b| - 1];
      FilterConcat(a, b', pick);
      assert a + b == (a + b') + [e];
      FilterAppend(a + b', e, pick);
    }
  }

  /** Filtering by target first changes nothing for a real device, and leaves no plain event. */
  lemma {:induction false} FilterTwice(es: seq<RemoteEvent>, d: DeviceId)
    requires d != ""
    ensures AddressedTo(OnlyTargeted(es), d) == AddressedTo(es, d) && OnlyPlain(OnlyTargeted(es)) == []
  {
    if es != [] {
      var es', e := es[..|es| - 1], es[|es| - 1];
      FilterTwice(es', d);
      if Targeted(e) {
        FilterAppend(OnlyTargeted(es'), e, For(d));
        FilterAppend(OnlyTargeted(es'), e, PlainOnes);
      }
    }
  }

  /** Keeping the newest after each arrival is keeping the newest of all. */
  lemma NewestOfNewest(es: seq<RemoteEvent>, e: RemoteEvent)
    ensures Newest(Newest(es) + [e]) == Newest(es + [e])
  {
    if |es| > MAX_DEFERRED {
      assert Newest(es) + [e] == (es + [e])[|es| - MAX_DEFERRED..];
    }
  }

  // ------------------------------------------------------------------- delivery

  lemma {:induction false} HandedEvents(es: seq<RemoteEvent>, d: DeviceId)
    requires d != "" || forall e <- es :: !Targeted(e)
    ensures OnlyTargeted(Events(Handed(es, d))) == (if d == "" then [] else AddressedTo(es, d))
    ensures OnlyPlain(Events(Handed(es, d))) == OnlyPlain(es)
    ensures forall x <- Handed(es, d) :: Proper(x)
  {
    if es != [] {
      var es', e := es[..|es| - 1], es[|es| - 1];
      HandedEvents(es', d);
      if !(Targeted(e) && e.target != d) {
        assert Events(Handed(es, d)) == Events(Handed(es', d)) + [e];
        FilterAppend(Events(Handed(es', d)), e, TargetedOnes);
        FilterAppend(Events(Handed(es', d)), e, PlainOnes);
      }
    }
  }

  lemma DeliverAppends(i: Inbox, es: seq<RemoteEvent>)
    requires i.deviceId != "" || forall e <- es :: !Targeted(e)
    requires forall x <- i.delivered :: Proper(x)
    ensures var i' := Deliver(i, es);
            && OnlyTargeted(Events(i'.delivered)) == OnlyTargeted(Events(i.delivered)) + (if i.deviceId == "" then [] else AddressedTo(es, i.deviceId))
            && OnlyPlain(Events(i'.delivered)) == OnlyPlain(Events(i.delivered)) + OnlyPlain(es)
            && forall x <- i'.delivered :: Proper(x)
  {
    HandedEvents(es, i.deviceId);
    assert Events(Deliver(i, es).delivered) == Events(i.delivered) + Events(Handed(es, i.deviceId));
    FilterConcat(Events(i.delivered), Events(Handed(es, i.deviceId)), TargetedOnes);
    FilterConcat(Events(i.delivered), Events(Handed(es, i.deviceId)), PlainOnes);
  }

  /** A targeted event is handed on only under the identity it is addressed to. */
  predicate Proper(x: Delivery) { Targeted(x.event) ==> x.event.target == x.identity }

  // ------------------------------------------------------------------ invariant

  ghost predicate InboxOk(i: Inbox) {
    && (forall x <- i.delivered :: Proper(x))
    && (i.deviceId == "" <==> i.identities == [])
    && OnlyPlain(Events(i.delivered)) == OnlyPlain(i.arrived)
    && (if i.deviceId == "" then
          i.deferred == Newest(OnlyTargeted(i.arrived)) && OnlyTargeted(Events(i.delivered)) == []
        else
          i.deferred == [] && (|i.identities| == 1 ==> Filtered(i)))
  }

  /** What has been handed on is the held window and everything since, filtered. */
  ghost predicate Filtered(i: Inbox) {
    && i.heldUntil <= |i.arrived|
    && OnlyTargeted(Events(i.delivered)) ==
         AddressedTo(Newest(OnlyTargeted(i.arrived[..i.heldUntil])), i.deviceId) + AddressedTo(i.arrived[i.heldUntil..], i.deviceId)
  }

  lemma HeldKeepsInbox(i: Inbox, e: RemoteEvent)
    requires InboxOk(i) && Targeted(e) && i.deviceId == ""
    ensures InboxOk(Arrive(i, e))
  {
    FilterAppend(i.arrived, e, TargetedOnes);
    FilterAppend(i.arrived, e, PlainOnes);
    NewestOfNewest(OnlyTargeted(i.arrived), e);
  }

  lemma One(e: RemoteEvent, pick: Pick)
    ensures Filter([e], pick) == if Picks(pick, e) then [e] else []
  {
    FilterAppend([], e, pick);
    assert [] + [e] == [e];
  }

  lemma PassedStaysFiltered(i: Inbox, e: RemoteEvent)
    requires InboxOk(i) && i.deviceId != "" && Filtered(i)
    ensures Filtered(Arrive(i, e))
  {
    var i1 := i.(arrived := i.arrived + [e]);
    DeliverAppends(i1, [e]);
    One(e, For(i.deviceId));
    assert i1.arrived[..i.heldUntil] == i.arrived[..i.heldUntil];
    assert i1.arrived[i.heldUntil..] == i.arrived[i.heldUntil..] + [e];
    FilterAppend(i.arrived[i.heldUntil..], e, For(i.deviceId));
    var held := AddressedTo(Newest(OnlyTargeted(i.arrived[..i.heldUntil])), i.deviceId);
    var since := AddressedTo(i.arrived[i.heldUntil..], i.deviceId);
    assert held + (since + [e]) == (held + since) + [e];
    assert OnlyTargeted(Events(i.delivered)) + [] == OnlyTargeted(Events(i.delivered));
  }

  lemma PassedKeepsPlain(i: Inbox, e: RemoteEvent)
    requires !(Targeted(e) && i.deviceId == "") && forall x <- i.delivered :: Proper(x)
    requires OnlyPlain(Events(i.delivered)) == OnlyPlain(i.arrived)
    ensures var i' := Arrive(i, e); OnlyPlain(Events(i'.delivered)) == OnlyPlain(i'.arrived) && forall x <- i'.delivered :: Proper(x)
  {
    var i1 := i.(arrived := i.arrived + [e]);
    FilterAppend(i.arrived, e, PlainOnes);
    One(e, PlainOnes);
    DeliverAppends(i1, [e]);
    assert Arrive(i, e) == Deliver(i1, [e]);
    var before := OnlyPlain(i.arrived);
    assert before + [] == before;
  }

  lemma PassedBeforeIdentity(i: Inbox, e: RemoteEvent)
    requires InboxOk(i) && !Targeted(e) && i.deviceId == ""
    ensures OnlyTargeted(Arrive(i, e).arrived) == OnlyTargeted(i.arrived) && OnlyTargeted(Events(Arrive(i, e).delivered)) == []
  {
    FilterAppend(i.arrived, e, TargetedOnes);
    DeliverAppends(i.(arrived := i.arrived + [e]), [e]);
  }

  lemma PassedKeepsInbox(i: Inbox, e: RemoteEvent)
    requires InboxOk(i) && !(Targeted(e) && i.deviceId == "")
    ensures InboxOk(Arrive(i, e))
  {
    PassedKeepsPlain(i, e);
    if i.deviceId == "" {
      PassedBeforeIdentity(i, e);
    } else if |i.identities| == 1 {
      PassedStaysFiltered(i, e);
    }
  }

  lemma ArriveKeepsInbox(i: Inbox, e: RemoteEvent)
    requires InboxOk(i)
    ensures InboxOk(Arrive(i, e))
  {
    if Targeted(e) && i.deviceId == "" { HeldKeepsInbox(i, e); } else { PassedKeepsInbox(i, e); }
  }

  lemma SuffixHasNoPlain(es: seq<RemoteEvent>, k: nat)
    requires OnlyPlain(es) == [] && k <= |es|
    ensures OnlyPlain(es[k..]) == []
  {
    assert es == es[..k] + es[k..];
    FilterConcat(es[..k], es[k..], PlainOnes);
  }

  lemma AdoptKeepsInbox(i: Inbox, d: DeviceId)
    requires InboxOk(i)
    ensures InboxOk(Flush(Adopt(i, d)))
  {
    var i1 := Adopt(i, d);
    assert i.arrived[..|i.arrived|] == i.arrived;
    if i1.deviceId != "" && i1.deferred != [] {
      var held := OnlyTargeted(i.arrived);
      FilterTwice(i.arrived, d);
      if |held| > MAX_DEFERRED { SuffixHasNoPlain(held, |held| - MAX_DEFERRED); }
      DeliverAppends(i1.(deferred := []), i1.deferred);
    }
  }

  lemma NewInboxOk(d: DeviceId)
    ensures InboxOk(NewInbox(d))
  {
  }

  lemma MessageKeepsInbox(s: State, message: Message, now: nat, random: string)
    requires InboxOk(s.inbox)
    ensures InboxOk(OnMessage(s, message, now, random).inbox)
  {
    match message
    case EventMessage(e) => ArriveKeepsInbox(s.inbox, e);
    case Response(_, _, deviceId, _) =>
      AdoptKeepsInbox(s.inbox, deviceId);
      AdoptKeepsInbox(s.inbox, s.inbox.deviceId);
    case _ =>
  }

  lemma StepKeepsInbox(s: State, e: Event)
    requires InboxOk(s.inbox)
    ensures InboxOk(Step(s, e).inbox)
  {
    if CanHappen(s, e) {
      match e
      case Connect(config, _) => NewInboxOk(config.deviceId);
      case Disconnect => NewInboxOk("");
      case Receives(_, message, now, random) => MessageKeepsInbox(s, message, now, random);
      case _ =>
    }
  }

  lemma {:induction false} RunKeepsInbox(es: seq<Event>)
    ensures InboxOk(Run(es).inbox)
  {
    if es != [] {
      RunKeepsInbox(es[..|es| - 1]);
      StepKeepsInbox(Run(es[..|es| - 1]), es[|es| - 1]);
    }
  }

  // ------------------------------------------------------------------- theorems

  /** No event addressed to another device is ever handed on, whatever identities come and go. */
  lemma NoForeignDelivery(es: seq<Event>, k: nat)
    requires k < |Run(es).inbox.delivered|
    ensures Proper(Run(es).inbox.delivered[k])
  {
    RunKeepsInbox(es);
    assert Run(es).inbox.delivered[k] in Run(es).inbox.delivered;
  }

  /** While no identity is known, the buffer is the newest 1000 targeted events and none has
      been handed on; it only ever loses its oldest. */
  lemma BufferKeepsNewest(es: seq<Event>)
    requires Run(es).inbox.deviceId == ""
    ensures var i := Run(es).inbox; var all := OnlyTargeted(i.arrived);
            && |i.deferred| == (if |all| <= 1000 then |all| else 1000) && i.deferred == all[|all| - |i.deferred|..]
            && OnlyTargeted(Events(i.delivered)) == []
  {
    RunKeepsInbox(es);
  }

  /** With one identity since connecting, the targeted events handed on are, in arrival
      order, those addressed to it among the newest 1000 held before it was known and all
      that came after: with no more than 1000 held, exactly those addressed to it. */
  lemma DeferralRefinesFiltering(es: seq<Event>)
    requires |Run(es).inbox.identities| == 1
    ensures var i := Run(es).inbox;
            && i.deviceId != "" && Filtered(i)
            && (|OnlyTargeted(i.arrived[..i.heldUntil])| <= MAX_DEFERRED ==>
                  OnlyTargeted(Events(i.delivered)) == AddressedTo(i.arrived, i.deviceId))
  {
    RunKeepsInbox(es);
    var i := Run(es).inbox;
    var before := i.arrived[..i.heldUntil];
    assert i.arrived == before + i.arrived[i.heldUntil..];
    FilterTwice(before, i.deviceId);
    FilterConcat(before, i.arrived[i.heldUntil..], For(i.deviceId));
  }

  /** Events without a target are all handed on, in arrival order. */
  lemma PlainEventsPassThrough(es: seq<Event>)
    ensures OnlyPlain(Events(Run(es).inbox.delivered)) == OnlyPlain(Run(es).inbox.arrived)
  {
    RunKeepsInbox(es);
  }
}
