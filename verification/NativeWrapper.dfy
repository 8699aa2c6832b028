/** The SDK wrapper as it runs (src-tauri/src/computer_control_sdk.rs): creating the runtime,
    a whole asynchronous call, the completion callback, and shutting down. When the callback
    comes is a parameter; one that comes late may come at any time after the call. */
module NativeWrapper {
  import opened Wrappers
  import opened NativeCalls

  datatype Timing = BeforeReturn | InTime | Late

  class Wrapper {
    var runtime: Runtime
    var api: Api
    var driver: Driver
    var calls: map<CallId, Call>
    ghost var fault: bool

    ghost function Now(): State
      reads this
    {
      State(runtime, api, driver, calls, fault)
    }

    /** The wrapper is in a state some run of the protocol leads to. */
    ghost predicate Valid()
      reads this
    {
      Reachable(Now())
    }

    constructor ()
      ensures Now() == INIT
    {
      runtime, api, driver, calls, fault := Unloaded, Api({}, false, false, 0), Driver(false, 0, 0), map[], false;
    }

    /** `create`, from an unloaded library to a ready runtime or nothing at all: whatever
        fails, the driver made so far is destroyed and the library unmapped again. */
    method Create(loads: bool, abi: bool, creates: bool, available: bool) returns (ok: bool)
      requires Now() == INIT
      modifies this
      ensures ok <==> loads && abi && creates && available
      ensures ok ==> runtime.Ready? && driver.live && api == Api({ByRuntime}, false, true, 0)
      ensures !ok ==> runtime.Closed? && !driver.live && !api.mapped && api.owners == {}
      ensures driver.creations == (if loads && abi && creates then 1 else 0)
      ensures driver.destructions == if ok then 0 else driver.creations
      ensures Valid() && calls == map[]
    {
      CreationReaches();
      if !loads {
        runtime := Closed;
        return false;
      }
      api := Api({ByRuntime}, false, true, 0);
      if abi && creates {
        driver := Driver(true, 1, 0);
        if available {
          runtime := Ready;
          return true;
        }
        driver := Driver(false, 1, 1);
      }
      DropReference(ByRuntime);
      runtime := Closed;
      return false;
    }

    /** Drop of one reference to the library; the last one unmaps it, unless it is to stay. */
    method DropReference(owner: ApiOwner)
      modifies this`api
      ensures api == DropOwner(old(api), owner)
    {
      var last := api.owners == {owner};
      api := api.(owners := api.owners - {owner});
      if last && !api.keepLoaded {
        api := api.(mapped := false, unloads := api.unloads + 1);
      }
    }

    /** Hands a new context to the SDK; from here on the library stays loaded. */
    method HandOver(c: CallId, closing: bool)
      requires Valid() && runtime.Ready? && c !in calls
      modifies this
      ensures Valid() && runtime == Calling(c) && driver == old(driver)
      ensures calls == old(calls)[c := NewCall(closing)]
    {
      ReadyToCall(Now());
      calls := calls[c := Call(Submitting, closing, WithSdk, 0, {ByCaller, ByContext}, None, NoHandle, 0, false)];
      api := api.(owners := api.owners + {ByCall(c)}, keepLoaded := true);
      runtime := Calling(c);
      ReachableStep(old(Now()), Submit(c, closing));
    }

    /** The completion callback, from taking its box to freeing it: whenever it comes, it
        leaves its value, frees its box once, and touches no other call. */
    method Callback(c: CallId, value: Value)
      requires Valid() && MayCallBack(Now(), c)
      modifies this
      ensures Valid() && runtime == old(runtime) && driver == old(driver)
      ensures calls == old(calls)[c := CalledBack(old(calls)[c], value)] && calls[c].reclaims == 1
    {
      CallbackSteps(Now(), c, value);
      calls := calls[c := calls[c].(box := InCallback, calledBack := true)];
      calls := calls[c := calls[c].(value := Some(value))];
      calls := calls[c := FreeBox(calls[c])];
      DropReference(ByCall(c));
    }

    /** The SDK refuses the call: the caller takes the context back and returns. */
    method TakeBack(c: CallId, handle: bool)
      requires Valid() && At(Now(), c, Submitting) && calls[c].box.WithSdk? && !calls[c].calledBack
      modifies this
      ensures Valid() && driver == old(driver) && runtime == AfterCall(old(calls)[c].closing)
      ensures calls == old(calls)[c := RefusedCall(old(calls)[c], handle)]
    {
      var call := FreeBox(calls[c]);
      DropReference(ByCall(c));
      if handle {
        call := call.(handle := Released, releases := call.releases + 1);
      } else {
        call := call.(handle := NoHandle);
      }
      calls := calls[c := call.(stage := Rejected, owners := call.owners - {ByCaller})];
      runtime := if call.closing then Destroying else Ready;
      ReachableStep(old(Now()), Reject(c, handle));
    }

    method Admit(c: CallId, handle: bool)
      requires Valid() && At(Now(), c, Submitting)
      modifies this`calls
      ensures Valid() && calls == old(calls)[c := old(calls)[c].(stage := Waiting, handle := if handle then Live else NoHandle)]
    {
      calls := calls[c := calls[c].(stage := Waiting, handle := if handle then Live else NoHandle)];
      ReachableStep(old(Now()), Accept(c, handle));
    }

    /** The wait ends with the value or with a timeout. */
    method Wait(c: CallId) returns (result: Option<Value>)
      requires Valid() && At(Now(), c, Waiting) && ByCaller in calls[c].owners
      modifies this`calls
      ensures Valid() && result == old(calls)[c].value
      ensures calls == old(calls)[c := old(calls)[c].(stage := if result.Some? then Completed else Expired)]
    {
      result := calls[c].value;
      calls := calls[c := calls[c].(stage := if result.Some? then Completed else Expired)];
      ReachableStep(old(Now()), if result.Some? then Complete(c) else Expire(c));
    }

    /** After a timeout the operation is cancelled, if it has a handle. */
    method CancelOperation(c: CallId)
      requires Valid() && At(Now(), c, Expired) && !calls[c].handle.Released?
      modifies this`calls
      ensures Valid() && calls == old(calls)[c := old(calls)[c].(stage := Cancelled)]
    {
      StaysMapped(Now());
      calls := calls[c := calls[c].(stage := Cancelled)];
      ReachableStep(old(Now()), Cancel(c));
    }

    /** The handle goes, and with it the caller's share of the completion state. */
    method Release(c: CallId)
      requires Valid() && (At(Now(), c, Completed) || At(Now(), c, Cancelled)) && !calls[c].handle.Released?
      modifies this`calls, this`runtime
      ensures Valid() && runtime == AfterCall(old(calls)[c].closing)
      ensures calls == old(calls)[c := ReleaseHandle(old(calls)[c]).(stage := Over, owners := old(calls)[c].owners - {ByCaller})]
    {
      StaysMapped(Now());
      var call := calls[c];
      if !call.handle.NoHandle? {
        call := call.(handle := Released, releases := call.releases + 1);
      }
      calls := calls[c := call.(stage := Over, owners := call.owners - {ByCaller})];
      runtime := if call.closing then Destroying else Ready;
      ReachableStep(old(Now()), Leave(c));
    }

    /** The wait and what follows it: a call without a value is cancelled, and either way
        its handle is released. */
    method Finish(c: CallId) returns (result: Option<Value>)
      requires Valid() && At(Now(), c, Waiting) && ByCaller in calls[c].owners && !calls[c].handle.Released?
      modifies this`calls, this`runtime
      ensures Valid() && runtime == AfterCall(old(calls)[c].closing) && result == old(calls)[c].value
      ensures calls == old(calls)[c := ReleaseHandle(old(calls)[c]).(stage := Over, owners := old(calls)[c].owners - {ByCaller})]
    {
      result := Wait(c);
      if result.None? {
        CancelOperation(c);
      }
      Release(c);
    }

    /** An admitted call, from the SDK's return to its own. */
    method RunAdmitted(c: CallId, handle: bool, timing: Timing, value: Value) returns (result: Option<Value>)
      requires Valid() && c in calls && calls[c] == NewCall(calls[c].closing)
      modifies this
      ensures Valid() && driver == old(driver) && runtime == AfterCall(old(calls)[c].closing)
      ensures result == if timing.Late? then None else Some(value)
      ensures calls == old(calls)[c := AdmittedCall(old(calls)[c].closing, handle, timing, value)]
    {
      if timing.BeforeReturn? {
        Callback(c, value);
      }
      Admit(c, handle);
      if timing.InTime? {
        Callback(c, value);
      }
      result := Finish(c);
    }

    /** `call_async`: the caller gets the callback's value exactly if the call was admitted
        and the callback came in time. On return the handle has been released, if there was
        one; the context box has been freed exactly once, or a late callback still owns it
        and will do so; and no other call has been touched. */
    method CallAsync(c: CallId, closing: bool, admitted: bool, handle: bool, timing: Timing, value: Value) returns (result: Option<Value>)
      requires Valid() && runtime.Ready? && c !in calls
      requires !admitted ==> timing.Late?
      modifies this
      ensures Valid() && driver == old(driver) && runtime == AfterCall(closing)
      ensures result == if admitted && !timing.Late? then Some(value) else None
      ensures c in calls && calls == old(calls)[c := calls[c]]
      ensures Finished(calls[c]) && calls[c].releases == (if handle then 1 else 0) && !calls[c].handle.Live?
      ensures calls[c].reclaims == if admitted && timing.Late? then 0 else 1
      ensures MayCallBack(Now(), c) <==> admitted && timing.Late?
    {
      HandOver(c, closing);
      if !admitted {
        TakeBack(c, handle);
        return None;
      }
      result := RunAdmitted(c, handle, timing, value);
    }

    /** `shutdown`, which dropping the runtime repeats: the closing call, however it goes, and
        then the driver is destroyed; a closed runtime is left alone. */
    method Shutdown(c: CallId, admitted: bool, handle: bool, timing: Timing, value: Value) returns (result: Option<Value>)
      requires Valid() && (runtime.Ready? || runtime.Closed?) && c !in calls
      requires !admitted ==> timing.Late?
      modifies this
      ensures Valid() && runtime.Closed? && !driver.live && driver.destructions == driver.creations
      ensures old(runtime).Closed? ==> Now() == old(Now()) && result.None?
      ensures old(runtime).Ready? ==> api.mapped && (result.Some? <==> admitted && !timing.Late?)
      ensures forall d <- old(calls) :: d in calls && calls[d] == old(calls)[d]
    {
      if runtime.Closed? {
        ReachableSound(Now());
        return None;
      }
      result := CallAsync(c, true, admitted, handle, timing, value);
      DestroyDriver();
    }

    method DestroyDriver()
      requires Valid() && runtime.Destroying? && calls != map[]
      modifies this
      ensures Valid() && runtime.Closed? && !driver.live && driver.destructions == driver.creations
      ensures calls == old(calls) && api.mapped
    {
      ReachableSound(Now());
      driver := driver.(live := false, destructions := driver.destructions + 1);
      DropReference(ByRuntime);
      runtime := Closed;
      ReachableStep(old(Now()), Destroy);
    }
  }

  /** What `create` may lead to. */
  lemma CreationReaches()
    ensures Reachable(State(Closed, INIT.api, INIT.driver, map[], false))
    ensures Reachable(State(Ready, Api({ByRuntime}, false, true, 0), Driver(true, 1, 0), map[], false))
    ensures Reachable(State(Closed, Api({}, false, false, 1), Driver(false, 0, 0), map[], false))
    ensures Reachable(State(Closed, Api({}, false, false, 1), Driver(false, 1, 1), map[], false))
  {
    var library := Api({ByRuntime}, false, true, 0);
    var loaded, checked := State(Loaded, library, INIT.driver, map[], false), State(Checked, library, INIT.driver, map[], false);
    var created := State(Created, library, Driver(true, 1, 0), map[], false);
    assert INIT == Run([]);
    ReachableStep(INIT, Load(false));
    ReachableStep(INIT, Load(true));
    assert Step(INIT, Load(true)) == loaded;
    ReachableStep(loaded, CheckAbi(true));
    ReachableStep(loaded, CheckAbi(false));
    assert DropOwner(library, ByRuntime) == Api({}, false, false, 1) by { assert {ByRuntime} - {ByRuntime} == {}; }
    assert Step(loaded, CheckAbi(true)) == checked;
    ReachableStep(checked, CreateDriver(true));
    assert Step(checked, CreateDriver(true)) == created;
    ReachableStep(created, CheckAvailable(true));
    ReachableStep(created, CheckAvailable(false));
  }

  lemma ReadyToCall(s: State)
    requires Reachable(s) && s.runtime.Ready?
    ensures s.api.mapped && s.driver.live
  {
    ReachableSound(s);
  }

  lemma StaysMapped(s: State)
    requires Reachable(s) && s.calls != map[]
    ensures s.api.mapped
  {
    ReachableSound(s);
  }

  /** The callback's three pieces, one after the other. */
  lemma CallbackSteps(s: State, c: CallId, value: Value)
    requires Reachable(s) && MayCallBack(s, c)
    ensures var s' := s.(calls := s.calls[c := CalledBack(s.calls[c], value)], api := DropOwner(s.api, ByCall(c)));
            Reachable(s') && s'.calls[c].reclaims == 1
  {
    ReachableSound(s);
    CallbackCompletes(s, c, value);
    ReachableStep(s, CallbackTakes(c));
    ReachableStep(Step(s, CallbackTakes(c)), CallbackWrites(c, value));
    ReachableStep(Step(Step(s, CallbackTakes(c)), CallbackWrites(c, value)), CallbackDrops(c));
  }

  /** A call the SDK has refused, its box and handle given back. */
  function RefusedCall(call: Call, handle: bool): Call {
    var freed := FreeBox(call).(handle := if handle then Live else NoHandle);
    ReleaseHandle(freed).(stage := Rejected, owners := freed.owners - {ByCaller})
  }

  /** A call the SDK has admitted, after it has returned. */
  function AdmittedCall(closing: bool, handle: bool, timing: Timing, value: Value): Call {
    var called := if timing.Late? then NewCall(closing) else CalledBack(NewCall(closing), value);
    called.(stage := Over, handle := if handle then Released else NoHandle, releases := if handle then 1 else 0,
            owners := called.owners - {ByCaller})
  }

  /** The runtime after a call returns. */
  function AfterCall(closing: bool): Runtime { if closing then Destroying else Ready }
}
