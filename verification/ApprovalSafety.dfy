/** Safety of approvals over every run. */
module ApprovalSafety {
  import opened Approvals

  // -------------------------------------------------------------------- invariant

  predicate SenderOk(s: State, r: ReqId, q: Request) {
    match q.sender
    case InPending => r in s.pending && s.pending[r] == q.auth && q.decisions == []
    case HeldBy(t) =>
      && r !in s.pending && t in s.answerers
      && (match s.answerers[t]
          case Recording(req) => req == r && q.decisions == [UserSays(true)]
          case Answering(req, allowed) => req == r && q.decisions == [UserSays(allowed)]
          case Denying(left) => r in left && q.decisions == [Revoked])
    case Sent(allowed) => r !in s.pending && (q.decisions == [UserSays(allowed)] || (!allowed && q.decisions == [Revoked]))
    case Dropped => r !in s.pending && (q.decisions == [UserSays(true)] || q.decisions == [Withdrawn])
  }

  predicate VerdictOk(q: Request, verdict: Verdict) {
    match verdict
    case Allowed => q.sender == Sent(true)
    case Denied => q.sender == Sent(false)
    case Invalidated => q.sender == Dropped && q.decisions == [UserSays(true)]
    case _ => true
  }

  predicate WaiterOk(q: Request) {
    && (q.waiter.Closing? || q.waiter.Over? ==> VerdictOk(q, q.waiter.verdict))
    && (q.waiter.Closing? ==> !q.waiter.verdict.NoWindow?)
    && (q.decisions == [Withdrawn] ==> q.waiter.Over? && (q.waiter.verdict.Abandoned? || q.waiter.verdict.NotShown?))
    && (q.waiter.Over? && !q.waiter.verdict.NoWindow? ==> !q.sender.InPending?)
  }

  predicate AnswererOk(s: State, t: TaskId, a: Answerer) {
    match a
    case Recording(r) => r in s.requests && s.requests[r].sender == HeldBy(t)
    case Answering(r, _) => r in s.requests && s.requests[r].sender == HeldBy(t)
    case Denying(left) => forall r <- left :: r in s.requests && s.requests[r].sender == HeldBy(t)
  }

  ghost predicate TableOk(s: State) {
    && s.pending.Keys <= s.requests.Keys
    && (forall r <- s.requests :: SenderOk(s, r, s.requests[r]) && WaiterOk(s.requests[r]))
    && (forall t <- s.answerers :: AnswererOk(s, t, s.answerers[t]))
  }

  // ----------------------------------------------------------------- preservation

  lemma AskKeepsTable(s: State, i: InvId, r: ReqId)
    requires TableOk(s) && CanInvoke(s, Ask(i, r))
    ensures TableOk(InvocationStep(s, Ask(i, r)))
  {
    var s' := InvocationStep(s, Ask(i, r));
    forall u | u in s'.requests ensures SenderOk(s', u, s'.requests[u]) && WaiterOk(s'.requests[u]) {
      if u != r { assert SenderOk(s, u, s.requests[u]) && WaiterOk(s.requests[u]); }
    }
    forall t | t in s'.answerers ensures AnswererOk(s', t, s'.answerers[t]) {
      assert AnswererOk(s, t, s.answerers[t]);
    }
  }

  lemma SameTable(s: State, s': State)
    requires TableOk(s) && s'.pending == s.pending && s'.requests == s.requests && s'.answerers == s.answerers
    ensures TableOk(s')
  {
    forall u | u in s'.requests ensures SenderOk(s', u, s'.requests[u]) && WaiterOk(s'.requests[u]) {
      assert SenderOk(s, u, s.requests[u]);
    }
    forall t | t in s'.answerers ensures AnswererOk(s', t, s'.answerers[t]) {
      assert AnswererOk(s, t, s.answerers[t]);
    }
  }

  lemma InvocationKeepsTable(s: State, e: Event)
    requires TableOk(s) && InvocationEvent(e) && CanInvoke(s, e)
    ensures TableOk(InvocationStep(s, e))
  {
    if e.Ask? { AskKeepsTable(s, e.inv, e.req); } else { SameTable(s, InvocationStep(s, e)); }
  }

  lemma OneWaiterMoves(s: State, r: ReqId, waiter: Waiter)
    requires TableOk(s) && r in s.requests && WaiterOk(s.requests[r].(waiter := waiter))
    ensures TableOk(SetRequest(s, r, s.requests[r].(waiter := waiter)))
  {
    var s' := SetRequest(s, r, s.requests[r].(waiter := waiter));
    forall u | u in s'.requests ensures SenderOk(s', u, s'.requests[u]) && WaiterOk(s'.requests[u]) {
      assert SenderOk(s, u, s.requests[u]);
    }
    forall t | t in s'.answerers ensures AnswererOk(s', t, s'.answerers[t]) {
      assert AnswererOk(s, t, s.answerers[t]);
    }
  }

  lemma MoveKeepsTable(s: State, e: Event)
    requires TableOk(s) && WaiterEvent(e) && CanWait(s, e) && !e.Close?
    ensures TableOk(WaiterStep(s, e))
  {
    assert SenderOk(s, e.req, s.requests[e.req]) && WaiterOk(s.requests[e.req]);
    OneWaiterMoves(s, e.req, WaiterStep(s, e).requests[e.req].waiter);
  }

  lemma CloseKeepsTable(s: State, r: ReqId)
    requires TableOk(s) && CanWait(s, Close(r))
    ensures TableOk(WaiterStep(s, Close(r)))
  {
    var s' := OnClose(s, r);
    assert SenderOk(s, r, s.requests[r]) && WaiterOk(s.requests[r]);
    forall u | u in s'.requests ensures SenderOk(s', u, s'.requests[u]) && WaiterOk(s'.requests[u]) {
      if u != r { assert SenderOk(s, u, s.requests[u]) && WaiterOk(s.requests[u]); }
    }
    forall t | t in s'.answerers ensures AnswererOk(s', t, s'.answerers[t]) {
      assert AnswererOk(s, t, s.answerers[t]);
    }
  }

  lemma WaiterKeepsTable(s: State, e: Event)
    requires TableOk(s) && WaiterEvent(e) && CanWait(s, e)
    ensures TableOk(WaiterStep(s, e))
  {
    if e.Close? { CloseKeepsTable(s, e.req); } else { MoveKeepsTable(s, e); }
  }

  /** One answerer settles or takes one request; the others and theirs are untouched. */
  lemma AnswerMoveKeepsTable(s: State, s': State, t: TaskId, r: ReqId)
    requires TableOk(s) && r in s.requests && s'.requests.Keys == s.requests.Keys && s'.pending.Keys <= s.pending.Keys
    requires forall u <- s.requests :: u != r ==>
      s'.requests[u] == s.requests[u] && (u in s'.pending <==> u in s.pending) && (u in s.pending ==> s'.pending[u] == s.pending[u])
    requires forall v <- s'.answerers :: v == t || (v in s.answerers && s'.answerers[v] == s.answerers[v])
    requires forall v <- s.answerers :: v == t || v in s'.answerers
    requires SenderOk(s', r, s'.requests[r]) && WaiterOk(s'.requests[r])
    requires t in s'.answerers ==> AnswererOk(s', t, s'.answerers[t])
    requires s.requests[r].sender.InPending? || s.requests[r].sender == HeldBy(t)
    requires forall u <- s.requests :: u != r && s.requests[u].sender == HeldBy(t) ==> SenderOk(s', u, s.requests[u])
    ensures TableOk(s')
  {
    forall u | u in s'.requests ensures SenderOk(s', u, s'.requests[u]) && WaiterOk(s'.requests[u]) {
      assert SenderOk(s, u, s.requests[u]) && WaiterOk(s.requests[u]);
    }
    forall v | v in s'.answerers ensures AnswererOk(s', v, s'.answerers[v]) {
      if v != t { assert AnswererOk(s, v, s.answerers[v]); }
    }
  }

  lemma RespondKeepsTable(s: State, t: TaskId, r: ReqId, allowed: bool)
    requires TableOk(s) && CanAnswer(s, Respond(t, r, allowed))
    ensures TableOk(AnswerStep(s, Respond(t, r, allowed)))
  {
    assert SenderOk(s, r, s.requests[r]) && WaiterOk(s.requests[r]);
    forall u | u in s.requests && s.requests[u].sender.HeldBy? ensures s.requests[u].sender.task in s.answerers {
      assert SenderOk(s, u, s.requests[u]);
    }
    AnswerMoveKeepsTable(s, AnswerStep(s, Respond(t, r, allowed)), t, r);
  }

  /** A recording or answering task holds one request only. */
  lemma HoldsOne(s: State, t: TaskId)
    requires TableOk(s) && t in s.answerers && !s.answerers[t].Denying?
    ensures s.answerers[t].req in s.requests && s.requests[s.answerers[t].req].sender == HeldBy(t)
    ensures forall u <- s.requests :: s.requests[u].sender == HeldBy(t) ==> u == s.answerers[t].req
  {
    assert AnswererOk(s, t, s.answerers[t]);
    forall u | u in s.requests && s.requests[u].sender == HeldBy(t) ensures u == s.answerers[t].req {
      assert SenderOk(s, u, s.requests[u]);
    }
  }

  lemma RecordKeepsTable(s: State, t: TaskId, ok: bool)
    requires TableOk(s) && CanAnswer(s, Record(t, ok))
    ensures TableOk(AnswerStep(s, Record(t, ok)))
  {
    var r := s.answerers[t].req;
    HoldsOne(s, t);
    assert SenderOk(s, r, s.requests[r]) && WaiterOk(s.requests[r]);
    AnswerMoveKeepsTable(s, AnswerStep(s, Record(t, ok)), t, r);
  }

  lemma AnswerKeepsTable(s: State, t: TaskId)
    requires TableOk(s) && CanAnswer(s, Answer(t))
    ensures TableOk(AnswerStep(s, Answer(t)))
  {
    var r := s.answerers[t].req;
    HoldsOne(s, t);
    assert SenderOk(s, r, s.requests[r]) && WaiterOk(s.requests[r]);
    AnswerMoveKeepsTable(s, AnswerStep(s, Answer(t)), t, r);
  }

  lemma RevokeKeepsRequest(s: State, t: TaskId, which: Which, r: ReqId)
    requires TableOk(s) && t !in s.answerers && r in s.requests
    ensures var s' := OnRevoke(s, t, which); SenderOk(s', r, s'.requests[r]) && WaiterOk(s'.requests[r])
  {
    assert SenderOk(s, r, s.requests[r]) && WaiterOk(s.requests[r]);
  }

  lemma RevokeKeepsAnswerer(s: State, t: TaskId, which: Which, u: TaskId)
    requires TableOk(s) && t !in s.answerers && (u == t || u in s.answerers)
    ensures var s' := OnRevoke(s, t, which); AnswererOk(s', u, s'.answerers[u])
  {
    if u != t { assert AnswererOk(s, u, s.answerers[u]); }
  }

  lemma RevokeKeepsTable(s: State, t: TaskId, which: Which)
    requires TableOk(s) && CanAnswer(s, Revoke(t, which))
    ensures TableOk(AnswerStep(s, Revoke(t, which)))
  {
    var s' := OnRevoke(s, t, which);
    forall r | r in s'.requests ensures SenderOk(s', r, s'.requests[r]) && WaiterOk(s'.requests[r]) {
      RevokeKeepsRequest(s, t, which, r);
    }
    forall u | u in s'.answerers ensures AnswererOk(s', u, s'.answerers[u]) {
      RevokeKeepsAnswerer(s, t, which, u);
    }
  }

  lemma DenyKeepsTable(s: State, t: TaskId, r: ReqId)
    requires TableOk(s) && CanAnswer(s, Deny(t, r))
    ensures TableOk(AnswerStep(s, Deny(t, r)))
  {
    assert AnswererOk(s, t, s.answerers[t]);
    assert SenderOk(s, r, s.requests[r]) && WaiterOk(s.requests[r]);
    var s' := AnswerStep(s, Deny(t, r));
    forall u | u in s.requests && u != r && s.requests[u].sender == HeldBy(t) ensures SenderOk(s', u, s.requests[u]) {
      assert SenderOk(s, u, s.requests[u]);
    }
    AnswerMoveKeepsTable(s, s', t, r);
  }

  lemma StepKeepsTable(s: State, e: Event)
    requires TableOk(s)
    ensures TableOk(Step(s, e))
  {
    if InvocationEvent(e) {
      if CanInvoke(s, e) { InvocationKeepsTable(s, e); }
    } else if WaiterEvent(e) {
      if CanWait(s, e) { WaiterKeepsTable(s, e); }
    } else if CanAnswer(s, e) {
      if e.Respond? { RespondKeepsTable(s, e.task, e.req, e.allowed); }
      else if e.Record? { RecordKeepsTable(s, e.task, e.ok); }
      else if e.Answer? { AnswerKeepsTable(s, e.task); }
      else if e.Revoke? { RevokeKeepsTable(s, e.task, e.which); }
      else if e.Deny? { DenyKeepsTable(s, e.task, e.req); }
      else { SameTable(s, AnswerStep(s, e)); }
    }
  }

  lemma {:induction false} RunKeepsTable(stored: map<Target, ReqId>, es: seq<Event>)
    ensures TableOk(RunFrom(Start(stored), es))
  {
    if es != [] {
      RunKeepsTable(stored, es[..|es| - 1]);
      StepKeepsTable(RunFrom(Start(stored), es[..|es| - 1]), es[|es| - 1]);
    }
  }

  // ------------------------------------------------------------------- decisions

  /** Each request is taken by at most one of respond, revocation and its own waiter, and is
      pending exactly until it is. */
  lemma AtMostOneDecision(stored: map<Target, ReqId>, es: seq<Event>, r: ReqId)
    requires r in RunFrom(Start(stored), es).requests
    ensures var s := RunFrom(Start(stored), es);
            |s.requests[r].decisions| == if r in s.pending then 0 else 1
  {
    RunKeepsTable(stored, es);
    var s := RunFrom(Start(stored), es);
    assert SenderOk(s, r, s.requests[r]);
  }

  /** What a waiter reports was decided: an approval by the user's allow alone, a denial by
      the user's denial or a revocation, "no longer valid" by an allow that could not be
      stored. */
  lemma VerdictMatchesDecision(stored: map<Target, ReqId>, es: seq<Event>, r: ReqId)
    requires r in RunFrom(Start(stored), es).requests && RunFrom(Start(stored), es).requests[r].waiter.Over?
    ensures var q := RunFrom(Start(stored), es).requests[r];
            && (q.waiter.verdict.Allowed? ==> q.decisions == [UserSays(true)])
            && (q.waiter.verdict.Denied? ==> q.decisions == [UserSays(false)] || q.decisions == [Revoked])
            && (q.waiter.verdict.Invalidated? ==> q.decisions == [UserSays(true)])
            && (q.decisions == [Withdrawn] ==> q.waiter.verdict.Abandoned? || q.waiter.verdict.NotShown?)
  {
    RunKeepsTable(stored, es);
    var s := RunFrom(Start(stored), es);
    assert SenderOk(s, r, s.requests[r]) && WaiterOk(s.requests[r]);
  }

  /** A waiter that gives up decides the request exactly if nobody has taken it by then; if
      somebody has, even an allow already stored, the caller is told it timed out all the same. */
  lemma GivingUpDecidesIffStillPending(stored: map<Target, ReqId>, es: seq<Event>, r: ReqId)
    requires CanWait(RunFrom(Start(stored), es), Close(r))
    ensures var s := RunFrom(Start(stored), es);
            var s' := Step(s, Close(r));
            && r !in s'.pending
            && s'.requests[r].waiter == Over(s.requests[r].waiter.verdict)
            && (s'.requests[r].decisions == [Withdrawn] <==> r in s.pending)
            && (r !in s.pending ==> s'.requests[r].decisions == s.requests[r].decisions)
  {
    RunKeepsTable(stored, es);
    var s := RunFrom(Start(stored), es);
    assert SenderOk(s, r, s.requests[r]) && WaiterOk(s.requests[r]);
  }

  /** The waiter of `r` comes to its end in this step. */
  predicate EndsWaiting(s: State, e: Event, r: ReqId) {
    r in s.requests && !s.requests[r].waiter.Over? && r in Step(s, e).requests && Step(s, e).requests[r].waiter.Over?
  }

  /** A request whose waiter ends stays in the table exactly if it was pending and ended for
      want of a window. */
  lemma EndedRequestStaysIff(stored: map<Target, ReqId>, es: seq<Event>, e: Event, r: ReqId)
    requires EndsWaiting(RunFrom(Start(stored), es), e, r)
    ensures var s := RunFrom(Start(stored), es); r in Step(s, e).pending <==> r in s.pending && e == Show(r, NoneBound)
  {
    OnlyWaitersEnd(RunFrom(Start(stored), es), e, r);
  }

  lemma OnlyWaitersEnd(s: State, e: Event, r: ReqId)
    requires EndsWaiting(s, e, r)
    ensures e == Close(r) || e == Show(r, NoneBound)
  {
  }

  /** A request with nobody waiting is pending exactly if it was left behind for want of a
      window and nobody has taken it since. */
  lemma LeftPendingWithoutWindow(stored: map<Target, ReqId>, es: seq<Event>, r: ReqId)
    requires r in RunFrom(Start(stored), es).requests && RunFrom(Start(stored), es).requests[r].waiter.Over?
    ensures var s := RunFrom(Start(stored), es);
            r in s.pending <==> s.requests[r].waiter == Over(NoWindow) && s.requests[r].decisions == []
  {
    var s := RunFrom(Start(stored), es);
    RunKeepsTable(stored, es);
    assert SenderOk(s, r, s.requests[r]) && WaiterOk(s.requests[r]);
  }

  /** The verdict told to the caller denies what the user had allowed. */
  predicate Contradicts(q: Request) {
    q.waiter.Over? && !q.waiter.verdict.Allowed? && q.decisions == [UserSays(true)]
  }

  /** The waiter leaves, with another verdict than "allowed", from a request the user allowed. */
  predicate LeavesAnAllow(s: State, e: Event, r: ReqId)
    requires r in s.requests
  {
    && s.requests[r].decisions == [UserSays(true)]
    && ((e == Close(r) && s.requests[r].waiter.Closing? && !s.requests[r].waiter.verdict.Allowed?)
        || (e == Show(r, NoneBound) && s.requests[r].waiter.Showing?))
  }

  /** The user allows a request that was left behind for want of a window. */
  predicate AllowsTheLeft(s: State, e: Event, r: ReqId)
    requires r in s.requests
  {
    e.Respond? && e.req == r && e.allowed && CanAnswer(s, e) && s.requests[r].waiter == Over(NoWindow)
  }

  /** A report contradicts the user after a step exactly if it did before, or in this step
      the waiter leaves a request the user has allowed, or the user allows one left behind. */
  lemma ContradictsIff(stored: map<Target, ReqId>, es: seq<Event>, e: Event, r: ReqId)
    requires r in RunFrom(Start(stored), es).requests
    ensures var s := RunFrom(Start(stored), es);
            && r in Step(s, e).requests
            && (Contradicts(Step(s, e).requests[r]) <==> Contradicts(s.requests[r]) || LeavesAnAllow(s, e, r) || AllowsTheLeft(s, e, r))
  {
    var s := RunFrom(Start(stored), es);
    RunKeepsTable(stored, es);
    assert SenderOk(s, r, s.requests[r]) && WaiterOk(s.requests[r]);
    if WaiterEvent(e) && CanWait(s, e) {
      WaitingContradicts(s, e, r);
    } else if AnswerEvent(e) && CanAnswer(s, e) {
      AnsweringContradicts(s, e, r);
    }
  }

  lemma WaitingContradicts(s: State, e: Event, r: ReqId)
    requires r in s.requests && SenderOk(s, r, s.requests[r]) && WaiterOk(s.requests[r]) && WaiterEvent(e) && CanWait(s, e)
    ensures var s' := WaiterStep(s, e);
            r in s'.requests && (Contradicts(s'.requests[r]) <==> Contradicts(s.requests[r]) || LeavesAnAllow(s, e, r))
  {
    assert [Withdrawn][0] == Withdrawn != [UserSays(true)][0];
    if s.requests[r].sender.InPending? { assert s.requests[r].decisions + [Withdrawn] == [Withdrawn]; }
  }

  lemma AnsweringContradicts(s: State, e: Event, r: ReqId)
    requires TableOk(s) && r in s.requests && AnswerEvent(e) && CanAnswer(s, e)
    ensures var s' := AnswerStep(s, e);
            r in s'.requests && (Contradicts(s'.requests[r]) <==> Contradicts(s.requests[r]) || AllowsTheLeft(s, e, r))
  {
    assert SenderOk(s, r, s.requests[r]) && WaiterOk(s.requests[r]);
    if e.Respond? { RespondingContradicts(s, e, r); }
    if r in s.pending { OneDecision(s.requests[r].decisions, Revoked); }
  }

  lemma RespondingContradicts(s: State, e: Event, r: ReqId)
    requires TableOk(s) && r in s.requests && e.Respond? && CanAnswer(s, e)
    ensures var s' := AnswerStep(s, e);
            r in s'.requests && (Contradicts(s'.requests[r]) <==> Contradicts(s.requests[r]) || AllowsTheLeft(s, e, r))
  {
    assert SenderOk(s, r, s.requests[r]) && WaiterOk(s.requests[r]);
    if r in s.pending { OneDecision(s.requests[r].decisions, UserSays(e.allowed)); }
  }

  lemma OneDecision(before: seq<Decision>, d: Decision)
    requires before == []
    ensures before + [d] == [UserSays(true)] <==> d == UserSays(true)
  {
    assert (before + [d])[0] == d;
  }

  // -------------------------------------------------------------------- authority

  /** The user allowed this very request. */
  predicate UserAllowed(s: State, r: ReqId, auth: Auth) {
    r in s.requests && s.requests[r].decisions == [UserSays(true)] && s.requests[r].auth == auth
  }

  /** A grant comes from a request for that target which the user allowed, or was stored before. */
  ghost predicate GrantOk(s: State, stored: map<Target, ReqId>, target: Target, r: ReqId) {
    (exists auth :: UserAllowed(s, r, auth) && auth.target == target) || (target in stored && stored[target] == r)
  }

  ghost predicate WhyOk(s: State, stored: map<Target, ReqId>, i: InvId, auth: Auth, why: Why) {
    match why
    case StoredGrant(r) => GrantOk(s, stored, auth.target, r)
    case Answered(r) => UserAllowed(s, r, auth) && s.requests[r].asker == i && s.requests[r].waiter == Over(Allowed)
  }

  ghost predicate InvocationOk(s: State, stored: map<Target, ReqId>, i: InvId, v: Invocation) {
    match v
    case Asking(auth, r) => r in s.requests && s.requests[r].auth == auth && s.requests[r].asker == i
    case Cleared(auth, why) => WhyOk(s, stored, i, auth, why)
    case Called(auth, why) => WhyOk(s, stored, i, auth, why)
    case _ => true
  }

  ghost predicate AuthorityOk(s: State, stored: map<Target, ReqId>) {
    && (forall target <- s.grants :: GrantOk(s, stored, target, s.grants[target]))
    && (forall i <- s.invocations :: InvocationOk(s, stored, i, s.invocations[i]))
  }

  /** What no step ever undoes: a request keeps its subject, and what decided it. */
  ghost predicate Keeps(s: State, s': State) {
    forall r <- s.requests ::
      && r in s'.requests && s'.requests[r].auth == s.requests[r].auth && s'.requests[r].asker == s.requests[r].asker
      && (s.requests[r].decisions != [] ==> s'.requests[r].decisions == s.requests[r].decisions)
      && (s.requests[r].waiter.Over? ==> s'.requests[r].waiter == s.requests[r].waiter)
  }

  lemma InvocationKeeps(s: State, e: Event)
    requires InvocationEvent(e) && CanInvoke(s, e)
    ensures Keeps(s, InvocationStep(s, e))
  {
  }

  lemma WaiterKeeps(s: State, e: Event)
    requires TableOk(s) && WaiterEvent(e) && CanWait(s, e)
    ensures Keeps(s, WaiterStep(s, e))
  {
    assert SenderOk(s, e.req, s.requests[e.req]);
  }

  lemma RevokeKeeps(s: State, t: TaskId, which: Which)
    requires TableOk(s)
    ensures Keeps(s, OnRevoke(s, t, which))
  {
    forall r | r in s.pending ensures s.requests[r].decisions == [] { assert SenderOk(s, r, s.requests[r]); }
  }

  lemma AnswerKeeps(s: State, e: Event)
    requires TableOk(s) && AnswerEvent(e) && CanAnswer(s, e)
    ensures Keeps(s, AnswerStep(s, e))
  {
    if e.Revoke? {
      RevokeKeeps(s, e.task, e.which);
    } else if e.Respond? {
      RespondKeeps(s, e);
    }
  }

  lemma RespondKeeps(s: State, e: Event)
    requires TableOk(s) && e.Respond? && CanAnswer(s, e)
    ensures Keeps(s, AnswerStep(s, e))
  {
    assert SenderOk(s, e.req, s.requests[e.req]);
  }

  lemma GrantStays(s: State, s': State, stored: map<Target, ReqId>, target: Target, r: ReqId)
    requires Keeps(s, s') && GrantOk(s, stored, target, r)
    ensures GrantOk(s', stored, target, r)
  {
    if auth :| UserAllowed(s, r, auth) && auth.target == target {
      assert UserAllowed(s', r, auth);
    }
  }

  lemma InvocationStays(s: State, s': State, stored: map<Target, ReqId>, i: InvId, v: Invocation)
    requires Keeps(s, s') && InvocationOk(s, stored, i, v)
    ensures InvocationOk(s', stored, i, v)
  {
    if (v.Cleared? || v.Called?) && v.why.StoredGrant? { GrantStays(s, s', stored, v.auth.target, v.why.giver); }
  }

  lemma RecordGrants(s: State, t: TaskId, stored: map<Target, ReqId>)
    requires TableOk(s) && CanAnswer(s, Record(t, true))
    ensures GrantOk(AnswerStep(s, Record(t, true)), stored, s.requests[s.answerers[t].req].auth.target, s.answerers[t].req)
  {
    var r := s.answerers[t].req;
    assert AnswererOk(s, t, s.answerers[t]);
    assert SenderOk(s, r, s.requests[r]);
    assert UserAllowed(AnswerStep(s, Record(t, true)), r, s.requests[r].auth);
  }

  /** Steps that leave invocations alone and store no new grant keep the authority. */
  lemma OtherStepKeepsAuthority(s: State, s': State, stored: map<Target, ReqId>)
    requires AuthorityOk(s, stored) && Keeps(s, s') && s'.invocations == s.invocations
    requires forall target <- s'.grants ::
      (target in s.grants && s'.grants[target] == s.grants[target]) || GrantOk(s', stored, target, s'.grants[target])
    ensures AuthorityOk(s', stored)
  {
    forall target | target in s'.grants ensures GrantOk(s', stored, target, s'.grants[target]) {
      if target in s.grants && s'.grants[target] == s.grants[target] { GrantStays(s, s', stored, target, s.grants[target]); }
    }
    forall i | i in s'.invocations ensures InvocationOk(s', stored, i, s'.invocations[i]) {
      InvocationStays(s, s', stored, i, s.invocations[i]);
    }
  }

  lemma AnswerKeepsAuthority(s: State, e: Event, stored: map<Target, ReqId>)
    requires TableOk(s) && AuthorityOk(s, stored) && AnswerEvent(e) && CanAnswer(s, e)
    ensures AuthorityOk(AnswerStep(s, e), stored)
  {
    AnswerKeeps(s, e);
    if e.Record? && e.ok { RecordGrants(s, e.task, stored); }
    OtherStepKeepsAuthority(s, AnswerStep(s, e), stored);
  }

  lemma InvocationKeepsAuthority(s: State, e: Event, stored: map<Target, ReqId>)
    requires TableOk(s) && AuthorityOk(s, stored) && InvocationEvent(e) && CanInvoke(s, e)
    ensures AuthorityOk(InvocationStep(s, e), stored)
  {
    var s' := InvocationStep(s, e);
    InvocationKeeps(s, e);
    forall target | target in s'.grants ensures GrantOk(s', stored, target, s'.grants[target]) {
      GrantStays(s, s', stored, target, s.grants[target]);
    }
    forall i | i in s'.invocations ensures InvocationOk(s', stored, i, s'.invocations[i]) {
      if i != e.inv {
        InvocationStays(s, s', stored, i, s.invocations[i]);
      } else {
        MoverOk(s, e, stored);
      }
    }
  }

  lemma MoverOk(s: State, e: Event, stored: map<Target, ReqId>)
    requires TableOk(s) && AuthorityOk(s, stored) && InvocationEvent(e) && CanInvoke(s, e)
    ensures var s' := InvocationStep(s, e); e.inv in s'.invocations && InvocationOk(s', stored, e.inv, s'.invocations[e.inv])
  {
    var s' := InvocationStep(s, e);
    InvocationKeeps(s, e);
    if !e.Begin? { assert InvocationOk(s, stored, e.inv, s.invocations[e.inv]); }
    if e.CheckGrant? {
      var target := s.invocations[e.inv].auth.target;
      if target in s.grants { GrantStays(s, s', stored, target, s.grants[target]); }
    } else if e.Conclude? {
      var r := s.invocations[e.inv].req;
      assert SenderOk(s, r, s.requests[r]) && WaiterOk(s.requests[r]);
    } else if e.CallSdk? {
      InvocationStays(s, s', stored, e.inv, s.invocations[e.inv]);
    }
  }

  lemma StepKeepsAuthority(s: State, e: Event, stored: map<Target, ReqId>)
    requires TableOk(s) && AuthorityOk(s, stored)
    ensures AuthorityOk(Step(s, e), stored)
  {
    if InvocationEvent(e) {
      if CanInvoke(s, e) { InvocationKeepsAuthority(s, e, stored); }
    } else if WaiterEvent(e) {
      if CanWait(s, e) {
        WaiterKeeps(s, e);
        OtherStepKeepsAuthority(s, WaiterStep(s, e), stored);
      }
    } else if CanAnswer(s, e) {
      AnswerKeepsAuthority(s, e, stored);
    }
  }

  lemma {:induction false} RunKeepsAuthority(stored: map<Target, ReqId>, es: seq<Event>)
    ensures AuthorityOk(RunFrom(Start(stored), es), stored)
  {
    if es == [] {
      forall target | target in stored ensures GrantOk(Start(stored), stored, target, stored[target]) {}
    } else {
      RunKeepsAuthority(stored, es[..|es| - 1]);
      RunKeepsTable(stored, es[..|es| - 1]);
      StepKeepsAuthority(RunFrom(Start(stored), es[..|es| - 1]), es[|es| - 1], stored);
    }
  }

  /** The SDK is reached only on the strength of an allow of the user: for the request this
      very invocation made, or for an earlier request about the same target, unless the
      grant was already stored when the program started. */
  lemma SdkReachedOnlyWithApproval(stored: map<Target, ReqId>, es: seq<Event>, i: InvId)
    requires i in RunFrom(Start(stored), es).invocations && RunFrom(Start(stored), es).invocations[i].Called?
    ensures var s := RunFrom(Start(stored), es);
            var Called(auth, why) := s.invocations[i];
            match why
            case Answered(r) => r in s.requests && s.requests[r].asker == i && s.requests[r].auth == auth && s.requests[r].decisions == [UserSays(true)]
            case StoredGrant(r) =>
              (r in s.requests && s.requests[r].decisions == [UserSays(true)] && s.requests[r].auth.target == auth.target)
              || (auth.target in stored && stored[auth.target] == r)
  {
    RunKeepsAuthority(stored, es);
    var s := RunFrom(Start(stored), es);
    assert InvocationOk(s, stored, i, s.invocations[i]);
  }
}
