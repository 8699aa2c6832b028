/** Approval of computer operations (src-tauri/src/computer_control_service.rs). A request
    waits in the pending table with the sending half of a one-shot channel; respond, the
    three kinds of revocation and the waiter itself race to take it out. Every event is one
    critical section or one uninterrupted piece of one task. */
module Approvals {
  import opened Wrappers
  import opened RequestScope
  import opened Texts

  type ReqId = nat
  type InvId = nat
  type TaskId = nat
  type Target = string

  datatype Auth = Auth(target: Target, threadId: string, turnId: string)

  /** Everything that can take a request out of the pending table. */
  datatype Decision = UserSays(allowed: bool) | Revoked | Withdrawn

  /** Where the one-shot sender is. */
  datatype Sender = InPending | HeldBy(task: TaskId) | Sent(allowed: bool) | Dropped

  datatype Verdict = Allowed | Denied | Invalidated | Abandoned(cancelled: bool) | NoWindow | NotShown
  datatype Waiter = Showing | Waiting | Closing(verdict: Verdict) | Over(verdict: Verdict)

  /** `decisions` lists, in order, all that have taken the request. */
  datatype Request = Request(auth: Auth, asker: InvId, sender: Sender, waiter: Waiter, decisions: seq<Decision>)

  datatype Answerer = Recording(req: ReqId) | Answering(req: ReqId, allowed: bool) | Denying(left: set<ReqId>)

  datatype Why = StoredGrant(giver: ReqId) | Answered(req: ReqId)
  datatype Invocation =
    | Checked(auth: Auth) | Ungranted(auth: Auth) | Asking(auth: Auth, req: ReqId)
    | Cleared(auth: Auth, why: Why) | Called(auth: Auth, why: Why) | Failed

  datatype State = State(
    pending: map<ReqId, Auth>, requests: map<ReqId, Request>, grants: map<Target, ReqId>,
    answerers: map<TaskId, Answerer>, invocations: map<InvId, Invocation>)

  datatype Who = Who(agent: string, threadId: string, turnId: string)
  datatype World = World(enabled: bool, initialized: bool, offered: bool, pid: nat, target: Option<Target>)
  datatype Shown = Visible | NoneBound | Broken
  datatype Which = All | Turn(threadId: string, turnId: Option<string>) | One(req: ReqId)

  datatype Event =
    | Begin(inv: InvId, who: Who, args: Json, world: World)
    | CheckGrant(inv: InvId)
    | Ask(inv: InvId, req: ReqId)
    | Conclude(inv: InvId)
    | CallSdk(inv: InvId)
    | Show(req: ReqId, shown: Shown)
    | Hear(req: ReqId)
    | GiveUp(req: ReqId, cancelled: bool)
    | Close(req: ReqId)
    | Respond(task: TaskId, req: ReqId, allowed: bool)
    | Record(task: TaskId, ok: bool)
    | Answer(task: TaskId)
    | Revoke(task: TaskId, which: Which)
    | Deny(task: TaskId, req: ReqId)
    | Forget(req: ReqId, resolved: Target)

  predicate InvocationEvent(e: Event) { e.Begin? || e.CheckGrant? || e.Ask? || e.Conclude? || e.CallSdk? }
  predicate WaiterEvent(e: Event) { e.Show? || e.Hear? || e.GiveUp? || e.Close? }
  predicate AnswerEvent(e: Event) { !InvocationEvent(e) && !WaiterEvent(e) }

  predicate CanInvoke(s: State, e: Event)
    requires InvocationEvent(e)
  {
    match e
    case Begin(i, _, _, _) => i !in s.invocations
    case CheckGrant(i) => i in s.invocations && s.invocations[i].Checked?
    case Ask(i, r) => i in s.invocations && s.invocations[i].Ungranted? && r !in s.requests
    case Conclude(i) =>
      i in s.invocations && s.invocations[i].Asking? && s.invocations[i].req in s.requests && s.requests[s.invocations[i].req].waiter.Over?
    case CallSdk(i) => i in s.invocations && s.invocations[i].Cleared?
  }

  predicate CanWait(s: State, e: Event)
    requires WaiterEvent(e)
  {
    e.req in s.requests &&
    match e
    case Show(r, _) => s.requests[r].waiter.Showing?
    case Hear(r) => s.requests[r].waiter.Waiting? && (s.requests[r].sender.Sent? || s.requests[r].sender.Dropped?)
    case GiveUp(r, _) => s.requests[r].waiter.Waiting?
    case Close(r) => s.requests[r].waiter.Closing?
  }

  predicate CanAnswer(s: State, e: Event)
    requires AnswerEvent(e)
  {
    match e
    case Respond(t, r, _) => t !in s.answerers && r in s.pending && r in s.requests
    case Record(t, _) => t in s.answerers && s.answerers[t].Recording? && s.answerers[t].req in s.requests
    case Answer(t) => t in s.answerers && s.answerers[t].Answering? && s.answerers[t].req in s.requests
    case Revoke(t, _) => t !in s.answerers
    case Deny(t, r) => t in s.answerers && s.answerers[t].Denying? && r in s.answerers[t].left && r in s.requests
    case Forget(r, _) => exists target <- s.grants :: s.grants[target] == r
  }

  function SetRequest(s: State, r: ReqId, request: Request): State { s.(requests := s.requests[r := request]) }

  /** The checks before any approval is looked up or asked for. */
  predicate Admissible(who: Who, args: Json, world: World) {
    && Trim(who.agent) != "" && Trim(who.threadId) != "" && Trim(who.turnId) != ""
    && world.enabled && world.initialized && world.offered
    && !ContainsDesktop(args) && world.target.Some? && !ContainsPid(args, world.pid)
  }

  function InvocationStep(s: State, e: Event): (s': State)
    requires InvocationEvent(e) && CanInvoke(s, e)
    ensures s' == s.(pending := s'.pending, requests := s'.requests, invocations := s'.invocations)
  {
    match e
    case Begin(i, who, args, world) =>
      s.(invocations := s.invocations[i :=
        if Admissible(who, args, world) then Checked(Auth(world.target.value, Trim(who.threadId), Trim(who.turnId))) else Failed])
    case CheckGrant(i) =>
      var auth := s.invocations[i].auth;
      s.(invocations := s.invocations[i :=
        if auth.target in s.grants then Cleared(auth, StoredGrant(s.grants[auth.target])) else Ungranted(auth)])
    case Ask(i, r) =>
      var auth := s.invocations[i].auth;
      s.(pending := s.pending[r := auth], requests := s.requests[r := Request(auth, i, InPending, Showing, [])],
         invocations := s.invocations[i := Asking(auth, r)])
    case Conclude(i) =>
      var Asking(auth, r) := s.invocations[i];
      s.(invocations := s.invocations[i := if s.requests[r].waiter.verdict.Allowed? then Cleared(auth, Answered(r)) else Failed])
    case CallSdk(i) => s.(invocations := s.invocations[i := Called(s.invocations[i].auth, s.invocations[i].why)])
  }

  /** What the waiter makes of the channel. */
  function Heard(sender: Sender): Verdict
    requires sender.Sent? || sender.Dropped?
  {
    match sender case Sent(true) => Allowed case Sent(false) => Denied case _ => Invalidated
  }

  /** Leaving the pending table, whoever is already gone from it: a sender still there is dropped. */
  function OnClose(s: State, r: ReqId): State
    requires r in s.requests && s.requests[r].waiter.Closing?
  {
    var request := s.requests[r];
    var closed := request.(waiter := Over(request.waiter.verdict));
    SetRequest(s.(pending := s.pending - {r}), r,
               if request.sender.InPending? then closed.(sender := Dropped, decisions := request.decisions + [Withdrawn]) else closed)
  }

  function WaiterStep(s: State, e: Event): (s': State)
    requires WaiterEvent(e) && CanWait(s, e)
    ensures s' == s.(pending := s'.pending, requests := s'.requests)
  {
    match e
    case Show(r, shown) =>
      SetRequest(s, r, s.requests[r].(waiter := match shown case Visible => Waiting case NoneBound => Over(NoWindow) case Broken => Closing(NotShown)))
    case Hear(r) => SetRequest(s, r, s.requests[r].(waiter := Closing(Heard(s.requests[r].sender))))
    case GiveUp(r, cancelled) => SetRequest(s, r, s.requests[r].(waiter := Closing(Abandoned(cancelled))))
    case Close(r) => OnClose(s, r)
  }

  function Take(request: Request, t: TaskId, decision: Decision): Request {
    request.(sender := HeldBy(t), decisions := request.decisions + [decision])
  }

  predicate StartsWith(s: string, prefix: string) { prefix <= s }

  /** The text a pending request is matched by, and the prefix `revoke_turn` looks for. */
  function TurnText(auth: Auth): string { auth.threadId + "\n" + auth.turnId + "\n" }

  function TurnPrefix(threadId: string, turnId: Option<string>): string {
    if turnId.Some? && Trim(turnId.value) != "" then Trim(threadId) + "\n" + Trim(turnId.value) + "\n" else Trim(threadId) + "\n"
  }

  predicate Matches(which: Which, r: ReqId, auth: Auth) {
    match which
    case All => true
    case Turn(threadId, turnId) => StartsWith(TurnText(auth), TurnPrefix(threadId, turnId))
    case One(req) => r == req
  }

  function Taken(s: State, which: Which): set<ReqId> {
    set r | r in s.pending && Matches(which, r, s.pending[r])
  }

  function OnRevoke(s: State, t: TaskId, which: Which): State {
    var taken := Taken(s, which);
    s.(pending := s.pending - taken,
       requests := map r | r in s.requests :: if r in taken then Take(s.requests[r], t, Revoked) else s.requests[r],
       answerers := s.answerers[t := Denying(taken)])
  }

  function AnswerStep(s: State, e: Event): (s': State)
    requires AnswerEvent(e) && CanAnswer(s, e)
    ensures s'.invocations == s.invocations
  {
    match e
    case Respond(t, r, allowed) =>
      SetRequest(s, r, Take(s.requests[r], t, UserSays(allowed)))
        .(pending := s.pending - {r}, answerers := s.answerers[t := if allowed then Recording(r) else Answering(r, false)])
    case Record(t, ok) =>
      var r := s.answerers[t].req;
      if ok then s.(grants := s.grants[s.requests[r].auth.target := r], answerers := s.answerers[t := Answering(r, true)])
      else SetRequest(s, r, s.requests[r].(sender := Dropped)).(answerers := s.answerers - {t})
    case Answer(t) =>
      var Answering(r, allowed) := s.answerers[t];
      SetRequest(s, r, s.requests[r].(sender := Sent(allowed))).(answerers := s.answerers - {t})
    case Revoke(t, which) => OnRevoke(s, t, which)
    case Deny(t, r) =>
      SetRequest(s, r, s.requests[r].(sender := Sent(false))).(answerers := s.answerers[t := Denying(s.answerers[t].left - {r})])
    case Forget(r, resolved) => s.(grants := s.grants - {resolved})
  }

  function Step(s: State, e: Event): State {
    if InvocationEvent(e) then if CanInvoke(s, e) then InvocationStep(s, e) else s
    else if WaiterEvent(e) then if CanWait(s, e) then WaiterStep(s, e) else s
    else if CanAnswer(s, e) then AnswerStep(s, e) else s
  }

  function RunFrom(s: State, es: seq<Event>): State {
    if es == [] then s else Step(RunFrom(s, es[..|es| - 1]), es[|es| - 1])
  }

  /** Nothing asked yet; some grants may be stored from earlier runs of the program. */
  function Start(stored: map<Target, ReqId>): State { State(map[], map[], stored, map[], map[]) }
}
