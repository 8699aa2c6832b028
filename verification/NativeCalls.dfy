/** Ownership around the native SDK's asynchronous calls
    (src-tauri/src/computer_control_sdk.rs). A call hands a heap context to the SDK, whose
    completion callback may run on another thread at any moment: before the call returns,
    while the caller waits, after it has timed out, or after the whole runtime is closed.
    Every event is one uninterrupted piece of one thread. Reference counts are modelled by
    the set of their owners. */
module NativeCalls {
  import opened Wrappers

  type CallId = nat
  type Value = string

  datatype ApiOwner = ByRuntime | ByCall(call: CallId)
  datatype StateOwner = ByCaller | ByContext

  /** The loaded library; unmapped when its last owner drops it, unless kept loaded. */
  datatype Api = Api(owners: set<ApiOwner>, keepLoaded: bool, mapped: bool, unloads: nat)

  /** Where the context box is. */
  datatype Box = WithSdk | InCallback | Reclaimed
  datatype Handle = NoHandle | Live | Released
  datatype Stage = Submitting | Waiting | Completed | Expired | Cancelled | Rejected | Over

  datatype Call = Call(
    stage: Stage, closing: bool, box: Box, reclaims: nat, owners: set<StateOwner>, value: Option<Value>,
    handle: Handle, releases: nat, calledBack: bool)

  datatype Driver = Driver(live: bool, creations: nat, destructions: nat)
  datatype Runtime = Unloaded | Loaded | Checked | Created | Ready | Calling(call: CallId) | Destroying | Closed

  /** `fault` is set when freed memory, a released handle, a destroyed driver or an unmapped
      library would be used. */
  datatype State = State(runtime: Runtime, api: Api, driver: Driver, calls: map<CallId, Call>, fault: bool)

  const INIT := State(Unloaded, Api({}, false, false, 0), Driver(false, 0, 0), map[], false)

  datatype Event =
    | Load(ok: bool)
    | CheckAbi(ok: bool)
    | CreateDriver(ok: bool)
    | CheckAvailable(ok: bool)
    | Submit(call: CallId, closing: bool)
    | Accept(call: CallId, handle: bool)
    | Reject(call: CallId, handle: bool)
    | CallbackTakes(call: CallId)
    | CallbackWrites(call: CallId, value: Value)
    | CallbackDrops(call: CallId)
    | Complete(call: CallId)
    | Expire(call: CallId)
    | Cancel(call: CallId)
    | Leave(call: CallId)
    | Destroy

  predicate RuntimeEvent(e: Event) { e.Load? || e.CheckAbi? || e.CreateDriver? || e.CheckAvailable? || e.Submit? || e.Destroy? }
  predicate CallbackEvent(e: Event) { e.CallbackTakes? || e.CallbackWrites? || e.CallbackDrops? }

  predicate At(s: State, c: CallId, stage: Stage) { c in s.calls && s.calls[c].stage == stage }

  /** The SDK's promise: at most one callback, and none for a call it does not admit. Once a
      callback has begun, admission cannot fail any more. */
  predicate MayCallBack(s: State, c: CallId) {
    c in s.calls && !s.calls[c].calledBack && !s.calls[c].stage.Rejected?
  }

  predicate CanHappen(s: State, e: Event) {
    match e
    case Load(_) => s.runtime.Unloaded?
    case CheckAbi(_) => s.runtime.Loaded?
    case CreateDriver(_) => s.runtime.Checked?
    case CheckAvailable(_) => s.runtime.Created?
    case Submit(c, _) => s.runtime.Ready? && c !in s.calls
    case Accept(c, _) => At(s, c, Submitting)
    case Reject(c, _) => At(s, c, Submitting) && !s.calls[c].calledBack
    case CallbackTakes(c) => MayCallBack(s, c)
    case CallbackWrites(c, _) => c in s.calls && s.calls[c].box.InCallback? && s.calls[c].value.None?
    case CallbackDrops(c) => c in s.calls && s.calls[c].box.InCallback? && s.calls[c].value.Some?
    case Complete(c) => At(s, c, Waiting) && s.calls[c].value.Some?
    case Expire(c) => At(s, c, Waiting) && s.calls[c].value.None?
    case Cancel(c) => At(s, c, Expired)
    case Leave(c) => At(s, c, Completed) || At(s, c, Cancelled)
    case Destroy => s.runtime.Destroying?
  }

  /** An owner of the library goes; the last one unmaps it unless it is to stay loaded. */
  function DropOwner(api: Api, owner: ApiOwner): Api {
    var owners := api.owners - {owner};
    if owners == {} && api.owners != {} && !api.keepLoaded then Api(owners, false, false, api.unloads + 1)
    else api.(owners := owners)
  }

  function Close(s: State): State { s.(runtime := Closed, api := DropOwner(s.api, ByRuntime)) }

  function Destroyed(s: State): State {
    s.(driver := s.driver.(live := false, destructions := s.driver.destructions + 1),
       fault := s.fault || !s.driver.live || !s.api.mapped)
  }

  function NewCall(closing: bool): Call {
    Call(Submitting, closing, WithSdk, 0, {ByCaller, ByContext}, None, NoHandle, 0, false)
  }

  function RuntimeStep(s: State, e: Event): State
    requires RuntimeEvent(e) && CanHappen(s, e)
  {
    match e
    case Load(ok) => if ok then s.(runtime := Loaded, api := Api({ByRuntime}, false, true, s.api.unloads)) else s.(runtime := Closed)
    case CheckAbi(ok) => if ok then s.(runtime := Checked) else Close(s)
    case CreateDriver(ok) =>
      if ok then s.(runtime := Created, driver := s.driver.(live := true, creations := s.driver.creations + 1)) else Close(s)
    case CheckAvailable(ok) => if ok then s.(runtime := Ready) else Close(Destroyed(s))
    case Submit(c, closing) =>
      s.(runtime := Calling(c), api := s.api.(owners := s.api.owners + {ByCall(c)}, keepLoaded := true),
         calls := s.calls[c := NewCall(closing)], fault := s.fault || !s.api.mapped || !s.driver.live)
    case Destroy => Close(Destroyed(s))
  }

  function SetCall(s: State, c: CallId, call: Call, bad: bool): State {
    s.(calls := s.calls[c := call], fault := s.fault || bad)
  }

  /** Freeing the context box drops its share of the library and of the completion state. */
  function FreeBox(call: Call): Call {
    call.(box := Reclaimed, reclaims := call.reclaims + 1, owners := call.owners - {ByContext})
  }

  function ReleaseHandle(call: Call): Call {
    if call.handle.NoHandle? then call else call.(handle := Released, releases := call.releases + 1)
  }

  function CallbackStep(s: State, e: Event): State
    requires CallbackEvent(e) && CanHappen(s, e)
  {
    var c := e.call;
    var call := s.calls[c];
    match e
    case CallbackTakes(_) => SetCall(s, c, call.(box := InCallback, calledBack := true), !call.box.WithSdk? || !s.api.mapped)
    case CallbackWrites(_, value) => SetCall(s, c, call.(value := Some(value)), call.owners == {})
    case CallbackDrops(_) => SetCall(s, c, FreeBox(call), ByContext !in call.owners).(api := DropOwner(s.api, ByCall(c)))
  }

  /** The caller's share of the completion state goes when `call_async` returns. */
  function Return(s: State, c: CallId, call: Call, stage: Stage, bad: bool): State {
    SetCall(s, c, call.(stage := stage, owners := call.owners - {ByCaller}), bad).(runtime := if call.closing then Destroying else Ready)
  }

  function CallerStep(s: State, e: Event): State
    requires !RuntimeEvent(e) && !CallbackEvent(e) && CanHappen(s, e)
  {
    var c := e.call;
    var call := s.calls[c];
    match e
    case Accept(_, handle) => SetCall(s, c, call.(stage := Waiting, handle := if handle then Live else NoHandle), false)
    case Reject(_, handle) =>
      var freed := FreeBox(call).(handle := if handle then Live else NoHandle);
      Return(s, c, ReleaseHandle(freed), Rejected, !call.box.WithSdk?).(api := DropOwner(s.api, ByCall(c)))
    case Complete(_) => SetCall(s, c, call.(stage := Completed), ByCaller !in call.owners)
    case Expire(_) => SetCall(s, c, call.(stage := Expired), ByCaller !in call.owners)
    case Cancel(_) => SetCall(s, c, call.(stage := Cancelled), call.handle.Released? || !s.api.mapped)
    case Leave(_) => Return(s, c, ReleaseHandle(call), Over, call.handle.Released? || !s.api.mapped)
  }

  function Step(s: State, e: Event): State {
    if !CanHappen(s, e) then s
    else if RuntimeEvent(e) then RuntimeStep(s, e)
    else if CallbackEvent(e) then CallbackStep(s, e)
    else CallerStep(s, e)
  }

  function RunFrom(s: State, es: seq<Event>): State {
    if es == [] then s else Step(RunFrom(s, es[..|es| - 1]), es[|es| - 1])
  }

  function Run(es: seq<Event>): State { RunFrom(INIT, es) }

  // -------------------------------------------------------------------- invariant

  predicate Finished(call: Call) { call.stage.Rejected? || call.stage.Over? }

  /** What one call owns at each stage. */
  predicate CallOk(call: Call) {
    && (call.box.Reclaimed? <==> ByContext !in call.owners)
    && call.reclaims == (if call.box.Reclaimed? then 1 else 0)
    && (call.box.WithSdk? <==> !call.calledBack && !call.stage.Rejected?)
    && (call.box.Reclaimed? <==> call.stage.Rejected? || (call.calledBack && !call.box.InCallback?))
    && (Finished(call) <==> ByCaller !in call.owners)
    && call.releases == (if call.handle.Released? then 1 else 0)
    && (call.stage.Submitting? ==> call.handle.NoHandle?)
    && (call.stage.Completed? ==> call.value.Some?)
    && (if Finished(call) then !call.handle.Live? else !call.handle.Released?)
    && (call.stage.Rejected? ==> !call.calledBack)
    && (call.value.Some? ==> call.calledBack)
  }

  predicate Holding(r: Runtime) { !r.Unloaded? && !r.Closed? }
  predicate Driving(r: Runtime) { r.Created? || r.Ready? || r.Calling? || r.Destroying? }

  ghost predicate CallsOk(s: State) {
    && (forall c <- s.calls :: CallOk(s.calls[c]))
    && (forall c <- s.calls :: !Finished(s.calls[c]) ==> s.runtime == Calling(c))
    && (forall c :: ByCall(c) in s.api.owners <==> c in s.calls && !s.calls[c].box.Reclaimed?)
  }

  ghost predicate LibraryOk(s: State) {
    && (ByRuntime in s.api.owners <==> Holding(s.runtime))
    && (s.calls != map[] ==> s.api.keepLoaded && s.api.mapped)
    && (s.api.owners != {} ==> s.api.mapped)
    && s.api.unloads <= 1 && (s.api.unloads == 1 ==> s.runtime.Closed? && !s.api.mapped)
    && (s.runtime.Unloaded? ==> !s.api.mapped && s.api.unloads == 0)
    && (s.runtime.Closed? ==> s.api.mapped == s.api.keepLoaded)
    && (s.runtime.Calling? ==> s.runtime.call in s.calls && !Finished(s.calls[s.runtime.call]))
    && (s.api.keepLoaded ==> s.calls != map[])
  }

  predicate DriverOk(s: State) {
    && (s.driver.live <==> Driving(s.runtime))
    && s.driver.creations <= 1
    && s.driver.creations == s.driver.destructions + (if s.driver.live then 1 else 0)
    && (!Driving(s.runtime) && !s.runtime.Closed? ==> s.driver.creations == 0)
    && (s.calls != map[] ==> Driving(s.runtime) || s.runtime.Closed?)
  }

  ghost predicate Sound(s: State) { CallsOk(s) && LibraryOk(s) && DriverOk(s) && !s.fault }

  lemma OwnersAre(s: State, o: ApiOwner)
    requires CallsOk(s) && o in s.api.owners
    ensures o.ByRuntime? || o.call in s.calls
  {
    if o.ByCall? { assert ByCall(o.call) in s.api.owners; }
  }

  /** Without calls only the runtime owns the library. */
  lemma SoleOwner(s: State)
    requires CallsOk(s) && s.calls == map[]
    ensures s.api.owners - {ByRuntime} == {}
  {
    forall o | o in s.api.owners ensures o.ByRuntime? { OwnersAre(s, o); }
  }

  lemma RuntimeKeepsSound(s: State, e: Event)
    requires Sound(s) && RuntimeEvent(e) && CanHappen(s, e)
    ensures Sound(RuntimeStep(s, e))
  {
    if s.calls == map[] { SoleOwner(s); }
  }

  lemma TakingKeepsSound(s: State, c: CallId)
    requires Sound(s) && CanHappen(s, CallbackTakes(c))
    ensures Sound(CallbackStep(s, CallbackTakes(c)))
  {
    assert CallOk(s.calls[c]);
  }

  lemma WritingKeepsSound(s: State, c: CallId, value: Value)
    requires Sound(s) && CanHappen(s, CallbackWrites(c, value))
    ensures Sound(CallbackStep(s, CallbackWrites(c, value)))
  {
    assert CallOk(s.calls[c]);
  }

  lemma DroppingKeepsSound(s: State, c: CallId)
    requires Sound(s) && CanHappen(s, CallbackDrops(c))
    ensures Sound(CallbackStep(s, CallbackDrops(c)))
  {
    assert CallOk(s.calls[c]);
  }

  lemma CallbackKeepsSound(s: State, e: Event)
    requires Sound(s) && CallbackEvent(e) && CanHappen(s, e)
    ensures Sound(CallbackStep(s, e))
  {
    if e.CallbackTakes? { TakingKeepsSound(s, e.call); }
    else if e.CallbackWrites? { WritingKeepsSound(s, e.call, e.value); }
    else { DroppingKeepsSound(s, e.call); }
  }

  lemma AcceptKeepsSound(s: State, e: Event)
    requires Sound(s) && CanHappen(s, e) && (e.Accept? || e.Cancel?)
    ensures Sound(CallerStep(s, e))
  {
    assert CallOk(s.calls[e.call]);
  }

  lemma WaitKeepsSound(s: State, e: Event)
    requires Sound(s) && CanHappen(s, e) && (e.Complete? || e.Expire?)
    ensures Sound(CallerStep(s, e))
  {
    assert CallOk(s.calls[e.call]);
  }

  lemma RejectKeepsSound(s: State, e: Event)
    requires Sound(s) && CanHappen(s, e) && e.Reject?
    ensures Sound(CallerStep(s, e))
  {
    assert CallOk(s.calls[e.call]);
  }

  lemma LeaveKeepsSound(s: State, e: Event)
    requires Sound(s) && CanHappen(s, e) && e.Leave?
    ensures Sound(CallerStep(s, e))
  {
    assert CallOk(s.calls[e.call]);
  }

  lemma StepKeepsSound(s: State, e: Event)
    requires Sound(s)
    ensures Sound(Step(s, e))
  {
    if CanHappen(s, e) {
      if RuntimeEvent(e) { RuntimeKeepsSound(s, e); }
      else if CallbackEvent(e) { CallbackKeepsSound(s, e); }
      else if e.Reject? { RejectKeepsSound(s, e); }
      else if e.Leave? { LeaveKeepsSound(s, e); }
      else if e.Accept? || e.Cancel? { AcceptKeepsSound(s, e); }
      else { WaitKeepsSound(s, e); }
    }
  }

  lemma {:induction false} RunKeepsSound(es: seq<Event>)
    ensures Sound(Run(es))
  {
    if es != [] {
      RunKeepsSound(es[..|es| - 1]);
      StepKeepsSound(Run(es[..|es| - 1]), es[|es| - 1]);
    }
  }

  /** A state some run leads to. */
  ghost predicate Reachable(s: State) { exists es :: s == Run(es) }

  lemma ReachableSound(s: State)
    requires Reachable(s)
    ensures Sound(s)
  {
    var es :| s == Run(es);
    RunKeepsSound(es);
  }

  lemma ReachableStep(s: State, e: Event)
    requires Reachable(s)
    ensures Reachable(Step(s, e))
  {
    var es :| s == Run(es);
    assert (es + [e])[..|es + [e]| - 1] == es;
    assert Run(es + [e]) == Step(s, e);
  }

  /** In no interleaving is anything freed, released, destroyed or unmapped used again. */
  lemma NothingGoneIsUsed(es: seq<Event>)
    ensures !Run(es).fault
  {
    RunKeepsSound(es);
  }

  /** The context box is reclaimed at most once, and has been exactly if the call was
      refused or its callback has finished. */
  lemma BoxReclaimedExactlyOnce(es: seq<Event>, c: CallId)
    requires c in Run(es).calls
    ensures var call := Run(es).calls[c];
            call.reclaims == if call.stage.Rejected? || (call.calledBack && !call.box.InCallback?) then 1 else 0
  {
    RunKeepsSound(es);
    assert CallOk(Run(es).calls[c]);
  }

  /** The operation handle is released at most once, is gone when the call returns, and is
      never cancelled once released. */
  lemma HandleReleasedExactlyOnce(es: seq<Event>, c: CallId)
    requires c in Run(es).calls
    ensures var call := Run(es).calls[c];
            && call.releases == (if call.handle.Released? then 1 else 0)
            && (Finished(call) ==> !call.handle.Live?)
            && (CanHappen(Run(es), Cancel(c)) ==> !call.handle.Released?)
  {
    RunKeepsSound(es);
    assert CallOk(Run(es).calls[c]);
  }

  /** The completion state is freed exactly when both the caller and the callback are done with it. */
  lemma StateFreedExactlyAfterBoth(es: seq<Event>, c: CallId)
    requires c in Run(es).calls
    ensures var call := Run(es).calls[c]; call.owners == {} <==> Finished(call) && call.box.Reclaimed?
  {
    RunKeepsSound(es);
    var call := Run(es).calls[c];
    assert CallOk(call);
    assert forall o <- call.owners :: o == ByCaller || o == ByContext;
    assert call.owners <= {ByCaller, ByContext};
  }

  /** The library is unmapped only if no asynchronous call was ever attempted, and at most once. */
  lemma UnmappedOnlyWithoutCalls(es: seq<Event>)
    ensures Run(es).calls != map[] ==> Run(es).api.mapped
    ensures Run(es).api.unloads <= 1
    ensures Run(es).runtime.Closed? ==> (Run(es).api.mapped <==> Run(es).calls != map[])
  {
    RunKeepsSound(es);
  }

  /** Once the runtime is closed, its driver, if one was created, has been destroyed once. */
  lemma DriverDestroyedExactlyOnce(es: seq<Event>)
    ensures Run(es).driver.destructions <= Run(es).driver.creations <= 1
    ensures Run(es).runtime.Closed? ==> Run(es).driver.destructions == Run(es).driver.creations
  {
    RunKeepsSound(es);
  }

  /** However late it comes, even after a timeout and the closing of the runtime, a pending
      callback runs to its end and frees what it was given. */
  lemma LateCallbackCompletes(es: seq<Event>, c: CallId, value: Value)
    requires MayCallBack(Run(es), c)
    ensures var s := RunFrom(Run(es), [CallbackTakes(c), CallbackWrites(c, value), CallbackDrops(c)]);
            !s.fault && c in s.calls && s.calls[c].box.Reclaimed? && s.calls[c].reclaims == 1 && s.calls[c].value == Some(value)
  {
    RunKeepsSound(es);
    RunOfThree(Run(es), CallbackTakes(c), CallbackWrites(c, value), CallbackDrops(c));
    CallbackCompletes(Run(es), c, value);
  }

  lemma CallbackCompletes(s: State, c: CallId, value: Value)
    requires Sound(s) && MayCallBack(s, c)
    ensures var s' := Step(Step(Step(s, CallbackTakes(c)), CallbackWrites(c, value)), CallbackDrops(c));
            s' == s.(calls := s.calls[c := CalledBack(s.calls[c], value)], api := DropOwner(s.api, ByCall(c)))
            && s'.calls[c].reclaims == 1
  {
    assert CallOk(s.calls[c]);
    var s1 := Step(s, CallbackTakes(c));
    assert s1 == s.(calls := s.calls[c := s.calls[c].(box := InCallback, calledBack := true)]);
    var s2 := Step(s1, CallbackWrites(c, value));
    assert s2 == s.(calls := s.calls[c := s.calls[c].(box := InCallback, calledBack := true, value := Some(value))]);
  }

  /** A call after its callback. */
  function CalledBack(call: Call, value: Value): Call {
    FreeBox(call.(calledBack := true, value := Some(value)))
  }

  lemma RunOfThree(s: State, a: Event, b: Event, c: Event)
    ensures RunFrom(s, [a, b, c]) == Step(Step(Step(s, a), b), c)
  {
    assert [a, b, c][..2] == [a, b] && [a, b][..1] == [a] && [a][..0] == [];
    assert RunFrom(s, []) == s;
    assert RunFrom(s, [a]) == Step(s, a);
    assert RunFrom(s, [a, b]) == Step(Step(s, a), b);
  }

  /** A call ends, its handle released, only with its value or after it has been cancelled;
      and it is cancelled only after it has waited in vain. */
  lemma EndsWithValueOrCancelled(es: seq<Event>, e: Event, c: CallId)
    requires c in Run(es).calls && c in Step(Run(es), e).calls
    ensures var before, after := Run(es).calls[c], Step(Run(es), e).calls[c];
            && (after.stage.Over? && !before.stage.Over? ==> (before.stage.Completed? && before.value.Some?) || before.stage.Cancelled?)
            && (after.stage.Cancelled? && !before.stage.Cancelled? ==> before.stage.Expired?)
            && (after.stage.Expired? && !before.stage.Expired? ==> before.stage.Waiting? && before.value.None?)
            && (after.stage.Completed? && !before.stage.Completed? ==> before.stage.Waiting? && after.value.Some?)
  {
    RunKeepsSound(es);
    assert CallOk(Run(es).calls[c]);
  }
}
