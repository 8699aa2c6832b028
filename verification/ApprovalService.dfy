/** The approval service as it runs: whole calls over the pending table and the stored grants,
    changed in place. `Approvals` has them section by section, with every interleaving.
    Channels, and the positions of tasks between sections, are ghost. */
module ApprovalService {
  import opened Approvals
  import opened ApprovalSafety

  /** A state some run leads to. */
  ghost predicate Reachable(s: State) { exists stored, es :: s == RunFrom(Start(stored), es) }

  lemma ReachableStep(s: State, e: Event)
    requires Reachable(s)
    ensures Reachable(Step(s, e))
  {
    var stored, es :| s == RunFrom(Start(stored), es);
    assert (es + [e])[..|es + [e]| - 1] == es;
    assert Step(s, e) == RunFrom(Start(stored), es + [e]);
  }

  lemma ReachableOk(s: State)
    requires Reachable(s)
    ensures TableOk(s)
  {
    var stored, es :| s == RunFrom(Start(stored), es);
    RunKeepsTable(stored, es);
  }

  // ------------------------------------------------------- where one section leads

  lemma CheckReaches(s: State, i: InvId)
    requires Reachable(s) && i in s.invocations && s.invocations[i].Checked?
    ensures var auth := s.invocations[i].auth;
            Reachable(s.(invocations := s.invocations[i :=
              if auth.target in s.grants then Cleared(auth, StoredGrant(s.grants[auth.target])) else Ungranted(auth)]))
  {
    ReachableStep(s, CheckGrant(i));
  }

  lemma AskReaches(s: State, i: InvId, r: ReqId)
    requires Reachable(s) && i in s.invocations && s.invocations[i].Ungranted? && r !in s.requests
    ensures var auth := s.invocations[i].auth;
            Reachable(s.(pending := s.pending[r := auth], requests := s.requests[r := Request(auth, i, InPending, Showing, [])],
                         invocations := s.invocations[i := Asking(auth, r)]))
  {
    ReachableStep(s, Ask(i, r));
  }

  lemma GiveUpReaches(s: State, r: ReqId, cancelled: bool)
    requires Reachable(s) && r in s.requests && s.requests[r].waiter.Waiting?
    ensures Reachable(SetRequest(s, r, s.requests[r].(waiter := Closing(Abandoned(cancelled)))))
  {
    ReachableStep(s, GiveUp(r, cancelled));
  }

  lemma CloseReaches(s: State, r: ReqId)
    requires Reachable(s) && r in s.requests && s.requests[r].waiter.Closing?
    ensures Reachable(OnClose(s, r))
  {
    ReachableStep(s, Close(r));
  }

  lemma RespondReaches(s: State, t: TaskId, r: ReqId, allowed: bool)
    requires Reachable(s) && t !in s.answerers && r in s.pending && r in s.requests
    ensures Reachable(SetRequest(s, r, Take(s.requests[r], t, UserSays(allowed)))
                        .(pending := s.pending - {r}, answerers := s.answerers[t := if allowed then Recording(r) else Answering(r, false)]))
  {
    ReachableStep(s, Respond(t, r, allowed));
  }

  lemma RecordReaches(s: State, t: TaskId, ok: bool)
    requires Reachable(s) && t in s.answerers && s.answerers[t].Recording? && s.answerers[t].req in s.requests
    ensures var r := s.answerers[t].req;
            Reachable(if ok then s.(grants := s.grants[s.requests[r].auth.target := r], answerers := s.answerers[t := Answering(r, true)])
                      else SetRequest(s, r, s.requests[r].(sender := Dropped)).(answerers := s.answerers - {t}))
  {
    ReachableStep(s, Record(t, ok));
  }

  lemma AnswerReaches(s: State, t: TaskId, r: ReqId, allowed: bool)
    requires Reachable(s) && t in s.answerers && s.answerers[t] == Answering(r, allowed) && r in s.requests
    ensures Reachable(SetRequest(s, r, s.requests[r].(sender := Sent(allowed))).(answerers := s.answerers - {t}))
  {
    ReachableStep(s, Answer(t));
  }

  lemma RevokeReaches(s: State, t: TaskId, which: Which)
    requires Reachable(s) && t !in s.answerers
    ensures Reachable(OnRevoke(s, t, which))
  {
    ReachableStep(s, Revoke(t, which));
  }

  lemma DenyReaches(s: State, t: TaskId, r: ReqId)
    requires Reachable(s) && t in s.answerers && s.answerers[t].Denying? && r in s.answerers[t].left && r in s.requests
    ensures Reachable(SetRequest(s, r, s.requests[r].(sender := Sent(false))).(answerers := s.answerers[t := Denying(s.answerers[t].left - {r})]))
  {
    ReachableStep(s, Deny(t, r));
  }

  lemma ForgetReaches(s: State, r: ReqId, resolved: Target)
    requires Reachable(s) && exists target <- s.grants :: s.grants[target] == r
    ensures Reachable(s.(grants := s.grants - {resolved}))
  {
    ReachableStep(s, Forget(r, resolved));
  }

  /** Requests after those of `taken` have been taken and denied. */
  function Refused(requests: map<ReqId, Request>, taken: set<ReqId>): map<ReqId, Request> {
    map r | r in requests ::
      if r in taken then requests[r].(sender := Sent(false), decisions := requests[r].decisions + [Revoked]) else requests[r]
  }

  /** Requests of which those of `taken` are in the hands of task `t`, and of those only the
      ones in `left` still wait for its answer. */
  function Refusing(requests: map<ReqId, Request>, t: TaskId, taken: set<ReqId>, left: set<ReqId>): map<ReqId, Request> {
    map r | r in requests ::
      if r in left then Take(requests[r], t, Revoked)
      else if r in taken then Take(requests[r], t, Revoked).(sender := Sent(false)) else requests[r]
  }

  lemma RefusedAll(requests: map<ReqId, Request>, t: TaskId, taken: set<ReqId>)
    ensures Refusing(requests, t, taken, {}) == Refused(requests, taken)
    ensures Refusing(requests, t, taken, taken) == map r | r in requests :: if r in taken then Take(requests[r], t, Revoked) else requests[r]
  {
  }

  lemma RefuseOne(requests: map<ReqId, Request>, t: TaskId, taken: set<ReqId>, left: set<ReqId>, r: ReqId)
    requires r in left && r in requests && left <= taken
    ensures Refusing(requests, t, taken, left - {r}) ==
              Refusing(requests, t, taken, left)[r := Refusing(requests, t, taken, left)[r].(sender := Sent(false))]
  {
  }

  // ------------------------------------------------------------------- the service

  datatype Reply = NotPending | NotStored | Replied

  class Service {
    var pending: map<ReqId, Auth>
    var grants: map<Target, ReqId>
    ghost var requests: map<ReqId, Request>
    ghost var answerers: map<TaskId, Answerer>
    ghost var invocations: map<InvId, Invocation>

    ghost function Now(): State
      reads this
    {
      State(pending, requests, grants, answerers, invocations)
    }

    ghost predicate Valid()
      reads this
    {
      Reachable(Now())
    }

    constructor (stored: map<Target, ReqId>)
      ensures Valid() && Now() == Start(stored)
    {
      pending, grants := map[], stored;
      requests, answerers, invocations := map[], map[], map[];
      new;
      assert Now() == RunFrom(Start(stored), []);
    }

    /** An invocation that has been let in: cleared at once under a stored grant, otherwise
        its request is pending and it waits for the answer. */
    method Authorize(ghost i: InvId, req: ReqId, auth: Auth) returns (granted: bool)
      requires Valid() && i in invocations && invocations[i] == Checked(auth) && req !in requests
      modifies this`pending, this`requests, this`invocations
      ensures Valid() && (granted <==> auth.target in grants)
      ensures pending == if granted then old(pending) else old(pending)[req := auth]
      ensures requests == if granted then old(requests) else old(requests)[req := Request(auth, i, InPending, Showing, [])]
      ensures invocations == old(invocations)[i := if granted then Cleared(auth, StoredGrant(grants[auth.target])) else Asking(auth, req)]
    {
      CheckReaches(Now(), i);
      granted := auth.target in grants;
      invocations := invocations[i := if granted then Cleared(auth, StoredGrant(grants[auth.target])) else Ungranted(auth)];
      if !granted {
        AskReaches(Now(), i, req);
        pending := pending[req := auth];
        requests := requests[req := Request(auth, i, InPending, Showing, [])];
        invocations := invocations[i := Asking(auth, req)];
      }
    }

    /** The caller gives up waiting: afterwards its request is not pending, and it was decided
        by this exactly if it was until now. */
    method Abandon(req: ReqId, cancelled: bool)
      requires Valid() && req in requests && requests[req].waiter.Waiting?
      modifies this`pending, this`requests
      ensures Valid() && pending == old(pending) - {req}
      ensures req in requests && requests == old(requests)[req := requests[req]]
      ensures requests[req].waiter == Over(Abandoned(cancelled))
      ensures requests[req].decisions == if req in old(pending) then [Withdrawn] else old(requests)[req].decisions
      ensures requests[req].sender == if req in old(pending) then Dropped else old(requests)[req].sender
    {
      ReachableOk(Now());
      assert SenderOk(Now(), req, requests[req]);
      GiveUpReaches(Now(), req, cancelled);
      requests := requests[req := requests[req].(waiter := Closing(Abandoned(cancelled)))];
      CloseReaches(Now(), req);
      ghost var q := requests[req].(waiter := Over(Abandoned(cancelled)));
      pending := pending - {req};
      requests := requests[req := if q.sender.InPending? then q.(sender := Dropped, decisions := q.decisions + [Withdrawn]) else q];
    }

    /** `respond`: nothing at all if the request is not pending. Otherwise this decides it; an
        allow is stored in place of any grant for the same target, and the answer is sent; if
        it cannot be stored, the waiter's channel is dropped instead. */
    method Respond(ghost t: TaskId, req: ReqId, allowed: bool, stores: bool) returns (reply: Reply)
      requires Valid() && t !in answerers
      modifies this`pending, this`grants, this`requests, this`answerers
      ensures Valid() && answerers == old(answerers)
      ensures reply == if req !in old(pending) then NotPending else if allowed && !stores then NotStored else Replied
      ensures reply.NotPending? ==> Now() == old(Now())
      ensures pending == old(pending) - {req}
      ensures grants == if reply.Replied? && allowed then old(grants)[old(pending)[req].target := req] else old(grants)
      ensures !reply.NotPending? ==>
                && req in old(requests) && old(requests)[req].decisions == []
                && requests == old(requests)[req := old(requests)[req].(sender := if reply.Replied? then Sent(allowed) else Dropped,
                                                                         decisions := [UserSays(allowed)])]
    {
      ReachableOk(Now());
      if req !in pending {
        assert pending - {req} == pending;
        return NotPending;
      }
      var target := pending[req].target;
      TakeForAnswer(t, req, allowed);
      var sent := Settle(t, req, target, allowed, stores);
      reply := if sent then Replied else NotStored;
    }

    /** Stores an allow, and sends the answer unless storing it fails. */
    method Settle(ghost t: TaskId, req: ReqId, target: Target, allowed: bool, stores: bool) returns (sent: bool)
      requires Valid() && t in answerers && answerers[t] == (if allowed then Recording(req) else Answering(req, false))
      requires req in requests && requests[req].auth.target == target
      modifies this`grants, this`requests, this`answerers
      ensures Valid() && answerers == old(answerers) - {t} && (sent <==> !allowed || stores)
      ensures grants == if allowed && stores then old(grants)[target := req] else old(grants)
      ensures requests == old(requests)[req := old(requests)[req].(sender := if sent then Sent(allowed) else Dropped)]
    {
      if allowed {
        var stored := StoreGrant(t, req, target, stores);
        if !stored {
          return false;
        }
      }
      SendAnswer(t, req, allowed);
      sent := true;
    }

    /** An allow is stored in place of any grant for the same target; if it cannot be, the
        sender is dropped unused. */
    method StoreGrant(ghost t: TaskId, req: ReqId, target: Target, stores: bool) returns (ok: bool)
      requires Valid() && t in answerers && answerers[t] == Recording(req) && req in requests && requests[req].auth.target == target
      modifies this`grants, this`requests, this`answerers
      ensures Valid() && ok == stores
      ensures grants == if ok then old(grants)[target := req] else old(grants)
      ensures requests == if ok then old(requests) else old(requests)[req := old(requests)[req].(sender := Dropped)]
      ensures answerers == if ok then old(answerers)[t := Answering(req, true)] else old(answerers) - {t}
    {
      RecordReaches(Now(), t, stores);
      if stores {
        grants := grants[target := req];
        answerers := answerers[t := Answering(req, true)];
      } else {
        requests := requests[req := requests[req].(sender := Dropped)];
        answerers := answerers - {t};
      }
      ok := stores;
    }

    method SendAnswer(ghost t: TaskId, req: ReqId, allowed: bool)
      requires Valid() && t in answerers && answerers[t] == Answering(req, allowed) && req in requests
      modifies this`requests, this`answerers
      ensures Valid() && answerers == old(answerers) - {t}
      ensures requests == old(requests)[req := old(requests)[req].(sender := Sent(allowed))]
    {
      AnswerReaches(Now(), t, req, allowed);
      requests := requests[req := requests[req].(sender := Sent(allowed))];
      answerers := answerers - {t};
    }

    method TakeForAnswer(ghost t: TaskId, req: ReqId, allowed: bool)
      requires Valid() && t !in answerers && req in pending
      modifies this`pending, this`requests, this`answerers
      ensures Valid() && req in old(requests) && old(requests)[req].decisions == [] && old(requests)[req].auth == old(pending)[req]
      ensures pending == old(pending) - {req}
      ensures requests == old(requests)[req := old(requests)[req].(sender := HeldBy(t), decisions := [UserSays(allowed)])]
      ensures answerers == old(answerers)[t := if allowed then Recording(req) else Answering(req, false)]
    {
      ReachableOk(Now());
      assert SenderOk(Now(), req, requests[req]);
      assert requests[req].decisions + [UserSays(allowed)] == [UserSays(allowed)];
      RespondReaches(Now(), t, req, allowed);
      pending := pending - {req};
      requests := requests[req := Take(requests[req], t, UserSays(allowed))];
      answerers := answerers[t := if allowed then Recording(req) else Answering(req, false)];
    }

    method MatchingIds(which: Which) returns (ids: set<ReqId>)
      ensures ids == Taken(Now(), which)
    {
      ids := {};
      var rest := pending.Keys;
      while rest != {}
        invariant rest <= pending.Keys
        invariant ids == set r | r in pending && r !in rest && Matches(which, r, pending[r])
      {
        var r :| r in rest;
        if Matches(which, r, pending[r]) {
          ids := ids + {r};
        }
        rest := rest - {r};
      }
    }

    /** Revoking everything, a turn or one request: exactly the matching requests leave the
        table, and each of them, decided by this alone, hears "no". */
    method RevokeMatching(ghost t: TaskId, which: Which) returns (taken: set<ReqId>)
      requires Valid() && t !in answerers
      modifies this`pending, this`requests, this`answerers
      ensures Valid() && taken == Taken(old(Now()), which)
      ensures pending == old(pending) - taken && requests == Refused(old(requests), taken)
      ensures answerers == old(answerers)[t := Denying({})]
    {
      taken := TakeMatching(t, which);
      RefusedAll(old(requests), t, taken);
      SendDenials(t, taken, old(requests));
    }

    /** Collects the matching ids and takes their requests out, under one lock. */
    method TakeMatching(ghost t: TaskId, which: Which) returns (taken: set<ReqId>)
      requires Valid() && t !in answerers
      modifies this`pending, this`requests, this`answerers
      ensures Valid() && taken == Taken(old(Now()), which) && taken <= old(requests).Keys
      ensures pending == old(pending) - taken && answerers == old(answerers)[t := Denying(taken)]
      ensures requests == Refusing(old(requests), t, taken, taken)
    {
      ReachableOk(Now());
      RevokeReaches(Now(), t, which);
      taken := MatchingIds(which);
      TakeOut(t, taken);
      answerers := answerers[t := Denying(taken)];
      RefusedAll(old(requests), t, taken);
    }

    /** Takes requests out of the table one by one. */
    method TakeOut(ghost t: TaskId, ids: set<ReqId>)
      requires ids <= pending.Keys <= requests.Keys
      modifies this`pending, this`requests
      ensures pending == old(pending) - ids
      ensures requests == map r | r in old(requests) :: if r in ids then Take(old(requests)[r], t, Revoked) else old(requests)[r]
    {
      var left := ids;
      while left != {}
        invariant left <= ids
        invariant pending == old(pending) - (ids - left)
        invariant requests == map r | r in old(requests) :: if r in ids - left then Take(old(requests)[r], t, Revoked) else old(requests)[r]
      {
        var r :| r in left;
        pending := pending - {r};
        requests := requests[r := Take(requests[r], t, Revoked)];
        left := left - {r};
      }
      assert ids - left == ids;
    }

    /** Sends the denials: every request taken hears "no". */
    method SendDenials(ghost t: TaskId, taken: set<ReqId>, ghost before: map<ReqId, Request>)
      requires Valid() && t in answerers && answerers[t] == Denying(taken) && taken <= before.Keys
      requires requests == Refusing(before, t, taken, taken)
      modifies this`requests, this`answerers
      ensures Valid() && requests == Refused(before, taken) && answerers == old(answerers)[t := Denying({})]
    {
      var left := taken;
      while left != {}
        invariant left <= taken && Valid() && requests == Refusing(before, t, taken, left)
        invariant answerers == old(answerers)[t := Denying(left)]
      {
        var r :| r in left;
        DenyReaches(Now(), t, r);
        RefuseOne(before, t, taken, left, r);
        requests := requests[r := requests[r].(sender := Sent(false))];
        answerers := answerers[t := Denying(left - {r})];
        left := left - {r};
      }
      RefusedAll(before, t, taken);
    }

    /** Withdrawing what a request has obtained: every grant for the target it resolves to
        goes, and if it is still pending it is refused. */
    method Withdraw(ghost t: TaskId, req: ReqId, resolved: Target) returns (revoked: bool)
      requires Valid() && t !in answerers
      modifies this`pending, this`grants, this`requests, this`answerers
      ensures var given := exists target <- old(grants) :: old(grants)[target] == req;
              && grants == (if given then old(grants) - {resolved} else old(grants))
              && (revoked <==> (given && resolved in old(grants)) || req in old(pending))
      ensures Valid() && pending == old(pending) - {req}
      ensures requests == Refused(old(requests), {req} * old(pending).Keys)
    {
      var given := exists target <- grants :: grants[target] == req;
      revoked := given && resolved in grants;
      if given {
        ForgetReaches(Now(), req, resolved);
        grants := grants - {resolved};
      }
      var taken := RevokeMatching(t, One(req));
      assert taken == {req} * old(pending).Keys && (req in taken <==> req in old(pending));
      revoked := revoked || taken != {};
    }
  }
}
