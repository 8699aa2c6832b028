/** Every request the mobile client issues settles at most once, and the pending table is
    exactly the unsettled ones. */
module RemoteRequests {
  import opened Wrappers
  import opened Numerals
  import opened Texts
  import opened RemoteClient

  // ---------------------------------------------------------------- identifiers

  lemma NoDash(n: nat)
    ensures '-' !in Numeral(n, 36)
  {
    NumeralReadBack(n, 36);
  }

  /** Ids with different sequence numbers differ, whatever clock and randomness say. */
  lemma MakeIdInjective(now1: nat, k1: nat, random1: string, now2: nat, k2: nat, random2: string)
    requires MakeId(now1, k1, random1) == MakeId(now2, k2, random2)
    ensures k1 == k2
  {
    NoDash(now1);
    NoDash(now2);
    NoDash(k1);
    NoDash(k2);
    var p := Numeral(k1, 36) + ['-'] + random1;
    var q := Numeral(k2, 36) + ['-'] + random2;
    assert MakeId(now1, k1, random1) == Numeral(now1, 36) + ['-'] + p;
    assert MakeId(now2, k2, random2) == Numeral(now2, 36) + ['-'] + q;
    SplitUnique(Numeral(now1, 36), Numeral(now2, 36), '-', p, q);
    SplitUnique(Numeral(k1, 36), Numeral(k2, 36), '-', random1, random2);
    NumeralInjective(k1, k2, 36);
  }

  ghost predicate IsId(id: RequestId, k: nat) { exists now: nat, random: string :: id == MakeId(now, k, random) }

  // ------------------------------------------------------------------ invariant

  /** Ids carry their own sequence number, the pending requests are exactly the issued and
      unsettled ones, none has settled twice, and exactly the pending ones have a timer armed. */
  ghost predicate ReqsOk(r: Requests) {
    && (forall id <- r.issued :: r.issued[id] <= r.sequence && IsId(id, r.issued[id]))
    && (forall id: RequestId :: (id in r.issued) == (id in r.pending || id in r.settled))
    && (forall id: RequestId :: r.settled[id] + (if id in r.pending then 1 else 0) <= 1)
    && TimersOk(r)
  }

  ghost predicate TimersOk(r: Requests) {
    && (forall t <- r.expiries :: t < r.nextTimer && r.expiries[t] in r.pending && r.pending[r.expiries[t]].timer == t)
    && (forall id <- r.pending :: r.pending[id].timer in r.expiries && r.expiries[r.pending[id].timer] == id)
  }

  lemma IssuedIdIsNew(r: Requests, now: nat, random: string)
    requires ReqsOk(r)
    ensures MakeId(now, r.sequence + 1, random) !in r.issued
  {
    var id := MakeId(now, r.sequence + 1, random);
    if id in r.issued {
      var now2: nat, random2: string :| id == MakeId(now2, r.issued[id], random2);
      MakeIdInjective(now, r.sequence + 1, random, now2, r.issued[id], random2);
    }
  }

  lemma AddKeepsTimers(r: Requests, id: RequestId, purpose: Purpose)
    requires TimersOk(r) && id !in r.pending
    ensures TimersOk(Add(r, id, purpose))
  {
  }

  lemma AddKeepsReqs(r: Requests, id: RequestId, purpose: Purpose)
    requires ReqsOk(r) && id !in r.issued && IsId(id, r.sequence + 1)
    ensures ReqsOk(Add(r, id, purpose))
  {
    assert id !in r.pending && id !in r.settled;
    AddKeepsTimers(r, id, purpose);
  }

  lemma IssueKeepsReqs(r: Requests, purpose: Purpose, now: nat, random: string)
    requires ReqsOk(r)
    ensures ReqsOk(Issue(r, purpose, now, random))
  {
    IssuedIdIsNew(r, now, random);
    assert IsId(MakeId(now, r.sequence + 1, random), r.sequence + 1);
    AddKeepsReqs(r, MakeId(now, r.sequence + 1, random), purpose);
  }

  lemma SettleKeepsTimers(r: Requests, id: RequestId)
    requires TimersOk(r) && id in r.pending
    ensures TimersOk(Settle(r, id))
  {
  }

  lemma SettleKeepsReqs(r: Requests, id: RequestId)
    requires ReqsOk(r) && id in r.pending
    ensures ReqsOk(Settle(r, id))
  {
    SettleKeepsTimers(r, id);
  }

  lemma RejectKeepsReqs(r: Requests)
    requires ReqsOk(r)
    ensures ReqsOk(RejectAll(r)) && RejectAll(r).pending == map[] && RejectAll(r).expiries == map[]
  {
    var r' := RejectAll(r);
    assert r'.expiries == map[];
    forall id: RequestId ensures r'.settled[id] == r.settled[id] + (if id in r.pending then 1 else 0) { }
  }

  lemma MarkKeepsReqs(s: State, now: nat, random: string)
    requires ReqsOk(s.reqs)
    ensures ReqsOk(MarkPeerOnline(s, now, random).reqs)
  {
    IssueKeepsReqs(s.reqs, Identify, now, random);
    IssueKeepsReqs(s.reqs, Pair, now, random);
  }

  lemma MessageKeepsReqs(s: State, message: Message, now: nat, random: string)
    requires ReqsOk(s.reqs)
    ensures ReqsOk(OnMessage(s, message, now, random).reqs)
  {
    match message
    case TunnelReady(_) => MarkKeepsReqs(s.(conn := s.conn.(retryIndex := 0)), now, random);
    case PeerOnline => MarkKeepsReqs(s, now, random);
    case Response(id, _, _, _) => if id in s.reqs.pending { SettleKeepsReqs(s.reqs, id); }
    case _ =>
  }

  /** Every other event rejects all pending requests or leaves the table alone. */
  lemma OthersRejectOrKeep(s: State, e: Event)
    requires !e.Ask? && !e.ExpiryFires? && !e.SendFails? && !e.Receives?
    ensures Step(s, e).reqs == s.reqs || Step(s, e).reqs == RejectAll(s.reqs)
  {
  }

  lemma StepKeepsReqs(s: State, e: Event)
    requires ReqsOk(s.reqs)
    ensures ReqsOk(Step(s, e).reqs)
  {
    if CanHappen(s, e) {
      if e.Ask? {
        IssueKeepsReqs(s.reqs, Page, e.now, e.random);
      } else if e.ExpiryFires? {
        SettleKeepsReqs(s.reqs, s.reqs.expiries[e.timer]);
      } else if e.SendFails? {
        if e.id in s.reqs.pending { SettleKeepsReqs(s.reqs, e.id); }
      } else if e.Receives? {
        MessageKeepsReqs(s, e.message, e.now, e.random);
      } else {
        RejectKeepsReqs(s.reqs);
        OthersRejectOrKeep(s, e);
      }
    }
  }

  lemma {:induction false} RunKeepsReqs(es: seq<Event>)
    ensures ReqsOk(Run(es).reqs)
  {
    if es != [] {
      RunKeepsReqs(es[..|es| - 1]);
      StepKeepsReqs(Run(es[..|es| - 1]), es[|es| - 1]);
    }
  }

  /** In every run each request ever issued is pending or settled, not both, and settled
      only once. */
  lemma RequestsSettleAtMostOnce(es: seq<Event>, id: RequestId)
    requires id in Run(es).reqs.issued
    ensures var r := Run(es).reqs; (id in r.pending && r.settled[id] == 0) || (id !in r.pending && r.settled[id] == 1)
  {
    RunKeepsReqs(es);
  }

  /** A new request never reuses an id. */
  lemma RequestIdsNeverRepeat(es: seq<Event>, now: nat, random: string)
    ensures MakeId(now, Run(es).reqs.sequence + 1, random) !in Run(es).reqs.issued
  {
    RunKeepsReqs(es);
    IssuedIdIsNew(Run(es).reqs, now, random);
  }

  /** Disconnecting, suspending, and the installed socket closing or failing settle everything. */
  lemma NothingPendingAfterLoss(es: seq<Event>, e: Event)
    requires CanHappen(Run(es), e)
    requires e.Connect? || e.Disconnect?
          || (e.Suspend? && !Run(es).conn.stopped && Run(es).conn.config.Some?)
          || ((e.Closed? || e.Errored?) && Run(es).conn.socket == Some(e.socket) && Current(Run(es).conn, e.socket))
    ensures var r := Step(Run(es), e).reqs; r.pending == map[] && r.expiries == map[] && forall id <- r.issued :: r.settled[id] == 1
  {
    RunKeepsReqs(es);
    StepKeepsReqs(Run(es), e);
    RejectKeepsReqs(Run(es).reqs);
  }

  /** A response, a failed send or a timeout for a request already settled does nothing; in
      fact no timer of such a request is armed any more. */
  lemma LateOutcomesDoNothing(es: seq<Event>, id: RequestId, ok: bool, deviceId: DeviceId, credential: string)
    requires id !in Run(es).reqs.pending
    ensures var s := Run(es);
            && OnResponse(s, id, ok, deviceId, credential) == s
            && Step(s, SendFails(id)) == s
            && forall t <- s.reqs.expiries :: s.reqs.expiries[t] != id
  {
    RunKeepsReqs(es);
  }
}
