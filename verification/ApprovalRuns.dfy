/** Runs in which an approval does not end the way its parties think it did. */
module ApprovalRuns {
  import opened Wrappers
  import opened RequestScope
  import opened Texts
  import opened Approvals
  import opened ApprovalSafety

  lemma RunExtends(s: State, es: seq<Event>, e: Event)
    ensures RunFrom(s, es + [e]) == Step(RunFrom(s, es), e)
  {
    assert (es + [e])[..|es + [e]| - 1] == es;
  }

  /** An admissible request about a target without a stored grant. */
  predicate Fresh(stored: map<Target, ReqId>, who: Who, args: Json, world: World) {
    Admissible(who, args, world) && world.target.value !in stored
  }

  function AuthOf(who: Who, world: World): Auth
    requires world.target.Some?
  {
    Auth(world.target.value, Trim(who.threadId), Trim(who.turnId))
  }

  function Asked(who: Who, args: Json, world: World): seq<Event> {
    [Begin(0, who, args, world), CheckGrant(0), Ask(0, 0)]
  }

  /** Once asked: pending, and the invocation waits. */
  function AskedState(stored: map<Target, ReqId>, auth: Auth): State {
    State(map[0 := auth], map[0 := Request(auth, 0, InPending, Showing, [])], stored, map[], map[0 := Asking(auth, 0)])
  }

  function Before(stored: map<Target, ReqId>, v: Invocation): State { State(map[], map[], stored, map[], map[0 := v]) }

  lemma AskingSteps(stored: map<Target, ReqId>, who: Who, args: Json, world: World)
    requires Fresh(stored, who, args, world)
    ensures var auth := AuthOf(who, world);
            && Step(Start(stored), Begin(0, who, args, world)) == Before(stored, Checked(auth))
            && Step(Before(stored, Checked(auth)), CheckGrant(0)) == Before(stored, Ungranted(auth))
            && Step(Before(stored, Ungranted(auth)), Ask(0, 0)) == AskedState(stored, auth)
  {
  }

  lemma AfterAsking(stored: map<Target, ReqId>, who: Who, args: Json, world: World)
    requires Fresh(stored, who, args, world)
    ensures RunFrom(Start(stored), Asked(who, args, world)) == AskedState(stored, AuthOf(who, world))
  {
    var a, b, c := Begin(0, who, args, world), CheckGrant(0), Ask(0, 0);
    AskingSteps(stored, who, args, world);
    RunOfThree(Start(stored), a, b, c);
  }

  lemma RunOfThree(s: State, a: Event, b: Event, c: Event)
    ensures RunFrom(s, [a, b, c]) == Step(Step(Step(s, a), b), c)
  {
    RunExtends(s, [], a);
    RunExtends(s, [a], b);
    RunExtends(s, [a, b], c);
    assert [] + [a] == [a] && [a] + [b] == [a, b] && [a, b] + [c] == [a, b, c];
  }

  /** No window: the caller has failed, and the request is pending still. */
  lemma RefusedButPending(stored: map<Target, ReqId>, who: Who, args: Json, world: World)
    requires Fresh(stored, who, args, world)
    ensures var s := RunFrom(Start(stored), Asked(who, args, world) + [Show(0, NoneBound)] + [Conclude(0)]);
            && 0 in s.pending && 0 in s.requests && s.requests[0].waiter == Over(NoWindow)
            && 0 in s.invocations && s.invocations[0] == Failed
  {
    AfterAsking(stored, who, args, world);
    RunExtends(Start(stored), Asked(who, args, world), Show(0, NoneBound));
    RunExtends(Start(stored), Asked(who, args, world) + [Show(0, NoneBound)], Conclude(0));
  }

  function Allowed(who: Who, args: Json, world: World): seq<Event> {
    Asked(who, args, world) + [Show(0, Visible)] + [Respond(0, 0, true)] + [Record(0, true)]
  }

  /** Once the user's allow is stored and not yet sent. */
  function AllowedState(stored: map<Target, ReqId>, auth: Auth): State {
    State(map[], map[0 := Request(auth, 0, HeldBy(0), Waiting, [UserSays(true)])], stored[auth.target := 0],
          map[0 := Answering(0, true)], map[0 := Asking(auth, 0)])
  }

  lemma AllowIsRecorded(stored: map<Target, ReqId>, auth: Auth)
    ensures var s := State(map[], map[0 := Request(auth, 0, HeldBy(0), Waiting, [UserSays(true)])], stored,
                           map[0 := Recording(0)], map[0 := Asking(auth, 0)]);
            Step(s, Record(0, true)) == AllowedState(stored, auth)
  {
  }

  lemma AllowingSteps(stored: map<Target, ReqId>, auth: Auth)
    ensures var s0 := AskedState(stored, auth);
            var s1 := s0.(requests := map[0 := Request(auth, 0, InPending, Waiting, [])]);
            var s2 := s1.(pending := map[], requests := map[0 := Request(auth, 0, HeldBy(0), Waiting, [UserSays(true)])], answerers := map[0 := Recording(0)]);
            && Step(s0, Show(0, Visible)) == s1
            && Step(s1, Respond(0, 0, true)) == s2
            && Step(s2, Record(0, true)) == AllowedState(stored, auth)
  {
    assert [] + [UserSays(true)] == [UserSays(true)];
    AllowIsRecorded(stored, auth);
  }

  lemma AfterAllowing(stored: map<Target, ReqId>, who: Who, args: Json, world: World)
    requires Fresh(stored, who, args, world)
    ensures RunFrom(Start(stored), Allowed(who, args, world)) == AllowedState(stored, AuthOf(who, world))
  {
    var s, es := Start(stored), Asked(who, args, world);
    AfterAsking(stored, who, args, world);
    AllowingSteps(stored, AuthOf(who, world));
    RunExtends(s, es, Show(0, Visible));
    RunExtends(s, es + [Show(0, Visible)], Respond(0, 0, true));
    RunExtends(s, es + [Show(0, Visible)] + [Respond(0, 0, true)], Record(0, true));
  }

  lemma TimingOutSteps(stored: map<Target, ReqId>, auth: Auth)
    ensures var s := Step(Step(AllowedState(stored, auth), GiveUp(0, false)), Close(0));
            && 0 in s.requests && s.requests[0].waiter == Over(Abandoned(false)) && s.requests[0].decisions == [UserSays(true)]
            && auth.target in s.grants && s.grants[auth.target] == 0
  {
  }

  /** The user allows, the grant is stored, and the caller is told it timed out. */
  lemma GrantedButTimedOut(stored: map<Target, ReqId>, who: Who, args: Json, world: World)
    requires Fresh(stored, who, args, world)
    ensures var s := RunFrom(Start(stored), Allowed(who, args, world) + [GiveUp(0, false)] + [Close(0)]);
            && 0 in s.requests && s.requests[0].waiter == Over(Abandoned(false)) && s.requests[0].decisions == [UserSays(true)]
            && world.target.value in s.grants && s.grants[world.target.value] == 0
            && Contradicts(s.requests[0])
  {
    AfterAllowing(stored, who, args, world);
    TimingOutSteps(stored, AuthOf(who, world));
    RunExtends(Start(stored), Allowed(who, args, world), GiveUp(0, false));
    RunExtends(Start(stored), Allowed(who, args, world) + [GiveUp(0, false)], Close(0));
  }

  /** Such requests exist. */
  lemma SomeRequestIsFresh()
    ensures Fresh(map[], Who("codex", "thread", "turn"), Object([]), World(true, true, true, 1, Some("application:editor")))
  {
    TrimIsIdle("codex");
    TrimIsIdle("thread");
    TrimIsIdle("turn");
    assert Field([], "scope") == None && Field([], "capture_scope") == None && Field([], "pid") == None;
  }

  // -------------------------------------------------------------- what an answer does

  /** The user answers, the caller hears it, and goes on as told. */
  function Answered1(who: Who, args: Json, world: World): seq<Event> {
    Allowed(who, args, world) + [Answer(0)] + [Hear(0)] + [Close(0)] + [Conclude(0)] + [CallSdk(0)]
  }

  lemma HearingSteps(stored: map<Target, ReqId>, auth: Auth)
    ensures var s1 := Step(AllowedState(stored, auth), Answer(0));
            var s2 := Step(Step(s1, Hear(0)), Close(0));
            && 0 in s2.requests && s2.requests[0].waiter == Over(Verdict.Allowed)
            && s2.invocations == map[0 := Asking(auth, 0)]
  {
  }

  lemma ConcludingSteps(s: State, auth: Auth)
    requires s.invocations == map[0 := Asking(auth, 0)] && 0 in s.requests && s.requests[0].waiter == Over(Verdict.Allowed)
    ensures Step(Step(s, Conclude(0)), CallSdk(0)).invocations == map[0 := Called(auth, Why.Answered(0))]
  {
  }

  /** An allow in time does reach the SDK. */
  lemma AllowReachesSdk(stored: map<Target, ReqId>, who: Who, args: Json, world: World)
    requires Fresh(stored, who, args, world)
    ensures RunFrom(Start(stored), Answered1(who, args, world)).invocations == map[0 := Called(AuthOf(who, world), Why.Answered(0))]
  {
    var s, es := Start(stored), Allowed(who, args, world);
    AfterAllowing(stored, who, args, world);
    HearingSteps(stored, AuthOf(who, world));
    RunExtends(s, es, Answer(0));
    RunExtends(s, es + [Answer(0)], Hear(0));
    RunExtends(s, es + [Answer(0)] + [Hear(0)], Close(0));
    RunExtends(s, es + [Answer(0)] + [Hear(0)] + [Close(0)], Conclude(0));
    RunExtends(s, es + [Answer(0)] + [Hear(0)] + [Close(0)] + [Conclude(0)], CallSdk(0));
    ConcludingSteps(RunFrom(s, es + [Answer(0)] + [Hear(0)] + [Close(0)]), AuthOf(who, world));
  }

  /** A stored grant reaches the SDK without a question. */
  lemma GrantReachesSdk(stored: map<Target, ReqId>, who: Who, args: Json, world: World)
    requires Admissible(who, args, world) && world.target.value in stored
    ensures var s := RunFrom(Start(stored), [Begin(0, who, args, world), CheckGrant(0), CallSdk(0)]);
            s.invocations == map[0 := Called(AuthOf(who, world), StoredGrant(stored[world.target.value]))] && s.requests == map[]
  {
    RunOfThree(Start(stored), Begin(0, who, args, world), CheckGrant(0), CallSdk(0));
  }
}
