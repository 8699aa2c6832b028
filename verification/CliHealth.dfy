/** The registry as it runs (src-tauri/src/local_cli_service_lifecycle.rs), one call at a
    time: `set` and `terminate` from beginning to end, and the loops over them, the health
    check and the shutdown of every service. `CliRegistry` has the calls section by section,
    with every interleaving of them. What the world does is a parameter: which executables
    are found, and which attempts to start or stop something succeed. */
module CliHealth {
  import opened Wrappers

  type CliId = string
  type Gen = nat
  type Token = string

  const COMMANDS: seq<CliId> := ["codex", "opencode", "claude"]

  datatype Service = Service(generation: Gen, token: Token, terminating: bool)

  /** How an attempt to start a service goes: no lease to be had, no address or no engine for
      the one taken, or well. */
  datatype Attempt = NoLease | NoEndpoint | NoEngine | Starts

  datatype World = World(found: CliId -> bool, attempt: CliId -> Attempt, childrenStop: CliId -> bool, token: CliId -> Token)

  /** Only the OpenCode service has children that may refuse to stop. */
  predicate Stops(w: World, cli: CliId) { cli != "opencode" || w.childrenStop(cli) }

  /** Finding out of step with the registry is what the health check acts on. */
  predicate Acts(w: World, services: map<CliId, Service>, cli: CliId) { w.found(cli) != (cli in services) }

  /** The action succeeds. */
  predicate Succeeds(w: World, cli: CliId) { if w.found(cli) then w.attempt(cli).Starts? else Stops(w, cli) }

  /** The health check removes OpenCode, fails to stop its children, and does nothing else. */
  predicate HidesRemoval(w: World, services: map<CliId, Service>) {
    && "opencode" in services && !w.found("opencode") && !w.childrenStop("opencode")
    && forall cli <- COMMANDS :: !(Acts(w, services, cli) && Succeeds(w, cli))
  }

  /** Nothing is found, OpenCode alone is registered, and its children do not stop. */
  lemma RemovalCanHide(w: World, service: Service)
    requires w.found == ((cli: CliId) => false) && w.childrenStop == ((cli: CliId) => false)
    ensures HidesRemoval(w, map["opencode" := service])
  {
  }

  /** Leases of all but one CLI. */
  function OthersOf(leases: map<Token, CliId>, cli: CliId): map<Token, CliId> {
    map t | t in leases && leases[t] != cli :: leases[t]
  }

  /** Tokens the world hands out are new, and all different. */
  ghost predicate Fresh(w: World, issued: set<Token>) {
    && (forall cli <- COMMANDS :: w.token(cli) !in issued)
    && (forall i, j | 0 <= i < j < |COMMANDS| :: w.token(COMMANDS[i]) != w.token(COMMANDS[j]))
  }

  /** Every service is ready, older than the next, and has its lease in the table unless a
      restart of the gateway has cleared it; at most one lease for each CLI. */
  ghost predicate Sound(services: map<CliId, Service>, nextGen: Gen, leases: map<Token, CliId>, issued: set<Token>) {
    && (forall cli <- services ::
          var s := services[cli];
          !s.terminating && s.generation < nextGen && s.token in issued && (s.token in leases ==> leases[s.token] == cli))
    && (forall t, u | t in leases && u in leases :: leases[t] == leases[u] ==> t == u)
    && leases.Keys <= issued
  }

  class Registry {
    var services: map<CliId, Service>
    var nextGen: Gen
    var leases: map<Token, CliId>
    ghost var issued: set<Token>

    ghost predicate Valid()
      reads this
    {
      Sound(services, nextGen, leases, issued)
    }

    constructor ()
      ensures Valid() && services == map[] && leases == map[] && nextGen == 1 && issued == {}
    {
      services, nextGen, leases, issued := map[], 1, map[], {};
    }

    /** The gateway starts or shuts down: the services stay, without their leases. */
    method ClearLeases()
      requires Valid()
      modifies this`leases
      ensures Valid() && leases == map[]
    {
      leases := map[];
    }

    /** `set`: a registered service is returned as it is; otherwise either a new one, of a new
        generation, is registered, ready and leased, or nothing is and the lease taken on the
        way is gone. Either way a lease taken replaces those left of the same CLI, and leases
        of other CLIs are not touched. */
    method SetCli(cli: CliId, attempt: Attempt, token: Token) returns (result: Option<Gen>)
      requires Valid() && token !in issued
      modifies this
      ensures Valid()
      ensures result.Some? <==> cli in old(services) || attempt.Starts?
      ensures result.Some? ==> cli in services && services[cli].generation == result.value
      ensures cli in old(services) ==> services == old(services) && nextGen == old(nextGen) && leases == old(leases)
      ensures cli !in old(services) && result.Some? ==>
                && services == old(services)[cli := Service(old(nextGen), token, false)] && nextGen == old(nextGen) + 1
                && leases == OthersOf(old(leases), cli)[token := cli]
      ensures result.None? ==>
                && services == old(services) && nextGen == old(nextGen)
                && leases == (if attempt.NoLease? then old(leases) else OthersOf(old(leases), cli))
      ensures old(issued) <= issued <= old(issued) + {token}
    {
      if cli in services {
        if services[cli].terminating {
          return None;
        }
        return Some(services[cli].generation);
      }
      if attempt.NoLease? {
        return None;
      }
      leases := OthersOf(leases, cli)[token := cli];
      issued := issued + {token};
      if attempt.NoEndpoint? || attempt.NoEngine? {
        leases := leases - {token};
        return None;
      }
      var service := Service(nextGen, token, false);
      nextGen := nextGen + 1;
      services := services[cli := service];
      result := Some(service.generation);
    }

    /** `terminate`: afterwards the CLI is not registered. Its lease is gone if the children
        stopped, and still there if they did not. */
    method TerminateCli(cli: CliId, stops: bool) returns (ok: bool)
      requires Valid()
      modifies this`services, this`leases
      ensures Valid()
      ensures ok <==> cli in old(services) && stops
      ensures services == old(services) - {cli}
      ensures leases == if ok then old(leases) - {old(services)[cli].token} else old(leases)
    {
      if cli !in services || services[cli].terminating {
        return false;
      }
      var service := services[cli].(terminating := true);
      services := services - {cli};
      if !stops {
        return false;
      }
      leases := leases - {service.token};
      ok := true;
    }

    /** One turn of the health check. */
    method ReconcileOne(w: World, cli: CliId) returns (changed: bool, failed: bool)
      requires Valid() && w.token(cli) !in issued
      modifies this
      ensures Valid() && old(issued) <= issued <= old(issued) + {w.token(cli)}
      ensures changed <==> Acts(w, old(services), cli) && Succeeds(w, cli)
      ensures failed <==> Acts(w, old(services), cli) && !Succeeds(w, cli)
      ensures cli in services <==> w.found(cli) && !failed
      ensures forall c <- old(services) :: c in services ==> services[c] == old(services)[c]
      ensures forall c :: c != cli ==> (c in services <==> c in old(services))
    {
      changed, failed := false, false;
      if w.found(cli) == (cli in services) {
        return;
      }
      if w.found(cli) {
        var result := SetCli(cli, w.attempt(cli), w.token(cli));
        changed := result.Some?;
      } else {
        changed := TerminateCli(cli, Stops(w, cli));
      }
      failed := !changed;
    }

    /** The health check. A CLI without a reported error ends up registered exactly if it was
        found; one already in step, or not in the list, is left alone; `changed` says that
        some action succeeded. It says whether the set of registered CLIs changed, except
        exactly when the check did nothing but remove OpenCode without stopping its children. */
    method ReconcileHealth(w: World) returns (changed: bool, errors: seq<CliId>)
      requires Valid() && Fresh(w, issued)
      modifies this
      ensures Valid()
      ensures forall cli <- COMMANDS :: cli in errors <==> Acts(w, old(services), cli) && !Succeeds(w, cli)
      ensures forall cli <- errors :: cli in COMMANDS
      ensures forall cli <- COMMANDS :: cli !in errors ==> (cli in services <==> w.found(cli))
      ensures forall cli <- old(services) :: cli in services ==> services[cli] == old(services)[cli]
      ensures forall cli :: cli !in COMMANDS ==> (cli in services <==> cli in old(services))
      ensures changed <==> exists cli <- COMMANDS :: Acts(w, old(services), cli) && Succeeds(w, cli)
      ensures (changed <==> services.Keys != old(services).Keys) <==> !HidesRemoval(w, old(services))
    {
      changed, errors := false, [];
      var i := 0;
      while i < |COMMANDS|
        invariant 0 <= i <= |COMMANDS| && Valid()
        invariant forall k | i <= k < |COMMANDS| :: w.token(COMMANDS[k]) !in issued
        invariant Progress(w, old(services), services, COMMANDS[..i], changed, errors)
      {
        var cli := COMMANDS[i];
        ghost var before := services;
        var did, failed := ReconcileOne(w, cli);
        ProgressOne(w, old(services), before, services, COMMANDS[..i], cli, changed, errors, failed);
        if did { changed := true; }
        if failed { errors := errors + [cli]; }
        assert COMMANDS[..i + 1] == COMMANDS[..i] + [cli];
        i := i + 1;
      }
      assert COMMANDS[..|COMMANDS|] == COMMANDS;
      ChangeIsSeen(w, old(services), services, changed, errors);
    }

    /** Shutting everything down: nothing stays registered, and the leases left are those
        nobody owned before and the lease of an OpenCode service that did not stop cleanly. */
    method TerminateEvery(w: World) returns (ok: bool)
      requires Valid()
      modifies this`services, this`leases
      ensures Valid() && services == map[]
      ensures ok <==> forall cli <- old(services) :: Stops(w, cli)
      ensures leases == LeasesLeft(w, old(services), old(leases), old(services).Keys)
    {
      var left := services.Keys;
      ok := true;
      NothingEnded(w, services, leases);
      while left != {}
        invariant Valid() && left <= old(services).Keys && services == map cli | cli in left :: old(services)[cli]
        invariant ok <==> forall cli <- old(services) :: cli in left || Stops(w, cli)
        invariant leases == LeasesLeft(w, old(services), old(leases), old(services).Keys - left)
      {
        var cli :| cli in left;
        OneMoreEnded(w, old(services), old(leases), old(services).Keys - left, cli);
        var done := TerminateCli(cli, Stops(w, cli));
        ok := ok && done;
        assert old(services).Keys - (left - {cli}) == old(services).Keys - left + {cli};
        left := left - {cli};
      }
      assert old(services).Keys - left == old(services).Keys;
    }
  }

  /** OpenCode is registered by `set`; then nothing is found any more and its children do not
      stop. The health check removes it and says that nothing has changed. */
  method RemovalGoesUnreported(w: World) returns (before: bool, changed: bool, after: bool)
    requires w.found == ((cli: CliId) => false) && w.childrenStop == ((cli: CliId) => false)
    requires Fresh(w, {"first"})
    ensures before && !changed && !after
  {
    var registry := new Registry();
    var set1 := registry.SetCli("opencode", Starts, "first");
    before := "opencode" in registry.services;
    RemovalCanHide(w, registry.services["opencode"]);
    var errors;
    changed, errors := registry.ReconcileHealth(w);
    after := "opencode" in registry.services;
  }

  /** The leases left once the services of `ended` have been terminated: all but theirs, if
      they stopped. */
  function LeasesLeft(w: World, services: map<CliId, Service>, leases: map<Token, CliId>, ended: set<CliId>): map<Token, CliId> {
    map t | t in leases && !(leases[t] in ended && leases[t] in services && services[leases[t]].token == t && Stops(w, leases[t])) :: leases[t]
  }

  lemma NothingEnded(w: World, services: map<CliId, Service>, leases: map<Token, CliId>)
    ensures LeasesLeft(w, services, leases, services.Keys - services.Keys) == leases
  {
  }

  lemma OneMoreEnded(w: World, services: map<CliId, Service>, leases: map<Token, CliId>, ended: set<CliId>, cli: CliId)
    requires cli in services && (services[cli].token in leases ==> leases[services[cli].token] == cli)
    ensures LeasesLeft(w, services, leases, ended + {cli}) ==
              if Stops(w, cli) then LeasesLeft(w, services, leases, ended) - {services[cli].token} else LeasesLeft(w, services, leases, ended)
  {
  }

  /** The health check after the commands `seen`. */
  ghost predicate Progress(w: World, before: map<CliId, Service>, now: map<CliId, Service>, seen: seq<CliId>, changed: bool, errors: seq<CliId>) {
    && (forall cli <- errors :: cli in seen)
    && (forall cli <- seen :: cli in errors <==> Acts(w, before, cli) && !Succeeds(w, cli))
    && (forall cli <- seen :: cli in now <==> w.found(cli) && cli !in errors)
    && (forall cli <- before :: cli in now ==> now[cli] == before[cli])
    && (forall cli :: cli !in seen ==> (cli in now <==> cli in before))
    && (changed <==> exists cli <- seen :: Acts(w, before, cli) && Succeeds(w, cli))
  }

  lemma ProgressOne(w: World, before: map<CliId, Service>, mid: map<CliId, Service>, now: map<CliId, Service>, seen: seq<CliId>,
                    cli: CliId, changed: bool, errors: seq<CliId>, failed: bool)
    requires Progress(w, before, mid, seen, changed, errors) && cli !in seen
    requires failed <==> Acts(w, mid, cli) && !Succeeds(w, cli)
    requires cli in now <==> w.found(cli) && !failed
    requires forall c <- mid :: c in now ==> now[c] == mid[c]
    requires forall c :: c != cli ==> (c in now <==> c in mid)
    ensures Progress(w, before, now, seen + [cli], changed || (Acts(w, mid, cli) && Succeeds(w, cli)), if failed then errors + [cli] else errors)
  {
    assert Acts(w, mid, cli) <==> Acts(w, before, cli);
    assert forall c :: c in seen + [cli] <==> c in seen || c == cli;
  }

  lemma ChangeIsSeen(w: World, before: map<CliId, Service>, now: map<CliId, Service>, changed: bool, errors: seq<CliId>)
    requires Progress(w, before, now, COMMANDS, changed, errors)
    ensures (changed <==> now.Keys != before.Keys) <==> !HidesRemoval(w, before)
  {
    if HidesRemoval(w, before) {
      assert "opencode" in COMMANDS && "opencode" !in now;
    } else if changed {
      var cli :| cli in COMMANDS && Acts(w, before, cli) && Succeeds(w, cli);
      assert cli in now.Keys <==> cli !in before.Keys;
    } else {
      forall cli ensures cli in now.Keys <==> cli in before.Keys {
        if cli in COMMANDS && Acts(w, before, cli) { assert !Succeeds(w, cli); }
      }
    }
  }
}
