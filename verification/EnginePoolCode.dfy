/** The EnginePool class in the form the server has it: fields updated in place, one
    method per await-free segment. Every method moves the object's state exactly as the
    machine of `EnginePoolModel` moves; `RunAll` says so of whole runs, and so the theorems
    about runs hold of the object. */
module EnginePoolCode {
  import opened Wrappers
  import opened EnginePoolModel

  class EnginePool {
    const settings: Settings
    var config: Config
    var generations: seq<Generation>
    var inFlight: Option<Run>
    var pendingRollover: Option<Request>
    var lastSpawnAt: int
    var disposed: bool
    var sessionOwnership: map<string, Id>
    var pinnedRequests: map<string, Id>
    var activeSessionsByGeneration: map<Id, set<string>>
    var polls: multiset<Id>
    var aborts: multiset<Id>
    var closing: map<Id, Cause>
    var recovery: Option<Recovery>
    var disposal: seq<Id>
    var nextId: Id

    ghost function State(): Pool
      reads this
    {
      Pool(settings, config, generations, inFlight, pendingRollover, lastSpawnAt, disposed, sessionOwnership,
           pinnedRequests, activeSessionsByGeneration, polls, aborts, closing, recovery, disposal, nextId)
    }

    constructor (settings: Settings, config: Config)
      ensures State() == Empty(settings, config)
    {
      this.settings := settings;
      this.config := config;
      generations, inFlight, pendingRollover, lastSpawnAt, disposed := [], None, None, 0, false;
      sessionOwnership, pinnedRequests, activeSessionsByGeneration := map[], map[], map[];
      polls, aborts, closing, recovery, disposal, nextId := multiset{}, multiset{}, map[], None, [], 0;
    }

    method AdoptPrimary(endpoint: Endpoint, fingerprint: string, now: int)
      modifies this
      ensures State() == Adopt(old(State()), endpoint, fingerprint, now)
    {
      generations := generations + [Generation(nextId, endpoint, Primary, fingerprint, None)];
      nextId := nextId + 1;
      lastSpawnAt := now;
    }

    // ------------------------------------------------- the maps, entry by entry

    /** `for (const key of keys) owners.set(key, id)` on the session owners. */
    method OwnSessions(keys: set<string>, id: Id)
      modifies this`sessionOwnership
      ensures sessionOwnership == AddOwner(old(sessionOwnership), keys, id)
    {
      var rest := keys;
      while rest != {}
        invariant rest <= keys
        invariant sessionOwnership == AddOwner(old(sessionOwnership), keys - rest, id)
        decreases rest
      {
        var key :| key in rest;
        sessionOwnership := sessionOwnership[key := id];
        rest := rest - {key};
        assert keys - rest == (keys - (rest + {key})) + {key};
      }
      assert keys - rest == keys;
    }

    /** The same on the pinned prompts. */
    method PinRequests(keys: set<string>, id: Id)
      modifies this`pinnedRequests
      ensures pinnedRequests == AddOwner(old(pinnedRequests), keys, id)
    {
      var rest := keys;
      while rest != {}
        invariant rest <= keys
        invariant pinnedRequests == AddOwner(old(pinnedRequests), keys - rest, id)
        decreases rest
      {
        var key :| key in rest;
        pinnedRequests := pinnedRequests[key := id];
        rest := rest - {key};
        assert keys - rest == (keys - (rest + {key})) + {key};
      }
      assert keys - rest == keys;
    }

    /** The session owners without the entries of `id`, except those in `kept`. */
    method DropSessions(id: Id, kept: set<string>)
      modifies this`sessionOwnership
      ensures sessionOwnership ==
        map s | s in old(sessionOwnership) && !(old(sessionOwnership)[s] == id && s !in kept) :: old(sessionOwnership)[s]
    {
      var rest := sessionOwnership.Keys;
      while rest != {}
        invariant rest <= old(sessionOwnership).Keys
        invariant sessionOwnership == map s | s in old(sessionOwnership) &&
          (s in rest || !(old(sessionOwnership)[s] == id && s !in kept)) :: old(sessionOwnership)[s]
        decreases rest
      {
        var session :| session in rest;
        if sessionOwnership[session] == id && session !in kept {
          sessionOwnership := sessionOwnership - {session};
        }
        rest := rest - {session};
      }
    }

    method DropPins(id: Id)
      modifies this`pinnedRequests
      ensures pinnedRequests == DropOwner(old(pinnedRequests), id)
    {
      var rest := pinnedRequests.Keys;
      while rest != {}
        invariant rest <= old(pinnedRequests).Keys
        invariant pinnedRequests == map r | r in old(pinnedRequests) &&
          (r in rest || old(pinnedRequests)[r] != id) :: old(pinnedRequests)[r]
        decreases rest
      {
        var request :| request in rest;
        if pinnedRequests[request] == id {
          pinnedRequests := pinnedRequests - {request};
        }
        rest := rest - {request};
      }
    }

    // ------------------------------------------------------- routing and events

    method RouteRequest(path: Path) returns (route: Option<Route>)
      modifies this`sessionOwnership
      ensures (State(), route) == EnginePoolModel.RouteRequest(old(State()), path)
    {
      var primary := Find(generations, Primary);
      if primary.None? {
        return None;
      }
      if path.session.Some? && path.session.value in sessionOwnership {
        var session := path.session.value;
        var owner := GenerationFor(generations, Some(sessionOwnership[session]));
        if owner.Some? {
          var id := owner.value.id;
          var active := id in activeSessionsByGeneration && session in activeSessionsByGeneration[id];
          if path.promptish && !active {
            sessionOwnership := sessionOwnership - {session};
          } else {
            return Some(Route(owner.value, None));
          }
        }
      }
      if path.request.Some? && path.request.value in pinnedRequests {
        var owner := GenerationFor(generations, Some(pinnedRequests[path.request.value]));
        if owner.Some? {
          return Some(Route(owner.value, None));
        }
      }
      var draining := Find(generations, Draining);
      return Some(Route(primary.value, if path.legacyReply then draining else None));
    }

    /** `[...keys].some(key => owners.get(key) === id)` */
    static method SomeOwned(owners: map<string, Id>, keys: set<string>, id: Id) returns (found: bool)
      ensures found <==> exists k <- keys :: k in owners && owners[k] == id
    {
      var rest := keys;
      while rest != {}
        invariant rest <= keys
        invariant forall k <- keys - rest :: !(k in owners && owners[k] == id)
        decreases rest
      {
        var key :| key in rest;
        if key in owners && owners[key] == id {
          return true;
        }
        rest := rest - {key};
      }
      return false;
    }

    /** `[...keys].some(key => owners.get(key) is defined and not id)` */
    static method SomeForeign(owners: map<string, Id>, keys: set<string>, id: Id) returns (found: bool)
      ensures found <==> exists k <- keys :: k in owners && owners[k] != id
    {
      var rest := keys;
      while rest != {}
        invariant rest <= keys
        invariant forall k <- keys - rest :: !(k in owners && owners[k] != id)
        decreases rest
      {
        var key :| key in rest;
        if key in owners && owners[key] != id {
          return true;
        }
        rest := rest - {key};
      }
      return false;
    }

    method ShouldForwardEvent(id: Id, payload: Payload) returns (forward: bool)
      modifies this`pinnedRequests
      ensures (State(), forward) == ForwardEvent(old(State()), id, payload)
    {
      var generation := GenerationFor(generations, Some(id));
      if generation.None? {
        return false;
      }
      if generation.value.status == Draining {
        var ownedSession := SomeOwned(sessionOwnership, payload.sessions, id);
        if ownedSession {
          PinRequests(payload.requests, id);
        }
        var ownedRequest := SomeOwned(pinnedRequests, payload.requests, id);
        return ownedSession || ownedRequest;
      }
      var foreignSession := SomeForeign(sessionOwnership, payload.sessions, id);
      var foreignRequest := SomeForeign(pinnedRequests, payload.requests, id);
      return !foreignSession && !foreignRequest;
    }

    // ---------------------------------------------------------------- rollovers

    method RequestRollover(request: Request)
      modifies this
      ensures State() == EnginePoolModel.RequestRollover(old(State()), request)
    {
      if disposed {
        return;
      }
      if inFlight.Some? {
        var pending := pendingRollover;
        pendingRollover := Some(request.(
          manual := request.manual || (pending.Some? && pending.value.manual),
          awaitPostRefreshSync := request.awaitPostRefreshSync || (pending.Some? && pending.value.awaitPostRefreshSync),
          forceStandby := request.forceStandby || (pending.Some? && pending.value.forceStandby)));
        return;
      }
      inFlight := Some(Preparing(request));
    }

    /** runRollover after the fingerprint was read. */
    method RunPrepared(request: Request, fingerprint: string, now: int)
      requires inFlight == Some(Preparing(request))
      modifies this
      ensures State() == Prepared(old(State()), fingerprint, now)
    {
      var primary := Find(generations, Primary);
      if !request.manual && primary.Some? && primary.value.fingerprint == fingerprint {
        inFlight := Some(Settled);
        return;
      }
      var captured := if primary.Some? then Some(primary.value.id) else None;
      if request.forceStandby {
        RunBusy(request, fingerprint, captured, now);
      } else {
        inFlight := Some(ProbingBusy(request, fingerprint, captured));
      }
    }

    /** runRollover after the busy probe. */
    method RunProbed(busy: bool, now: int)
      requires inFlight.Some? && inFlight.value.ProbingBusy?
      modifies this
      ensures State() == BusyKnown(old(State()), busy, now)
    {
      var run := inFlight.value;
      if busy {
        RunBusy(run.request, run.fingerprint, run.primary, now);
      } else {
        inFlight := Some(Reloading(run.fingerprint, run.primary));
      }
    }

    /** The rest of runRollover for an engine that counts as busy. */
    method RunBusy(request: Request, fingerprint: string, primary: Option<Id>, now: int)
      modifies this
      ensures State() == Decide(old(State()), request, fingerprint, primary, now)
    {
      if Find(generations, Draining).Some? {
        if request.forceStandby {
          inFlight := Some(AwaitingDrain(request, false));
          return;
        }
        pendingRollover := Some(request);
        inFlight := Some(Settled);
        return;
      }
      var sinceLastSpawn := now - lastSpawnAt;
      if !request.manual && !request.forceStandby && sinceLastSpawn < settings.minSpawnIntervalMs {
        pendingRollover := Some(request);
        inFlight := Some(Settled);
        return;
      }
      lastSpawnAt := now;
      inFlight := Some(Spawning(fingerprint, primary));
    }

    method RunReloaded(ok: bool)
      requires inFlight.Some? && inFlight.value.Reloading?
      modifies this
      ensures State() == Reloaded(old(State()), ok)
    {
      var run := inFlight.value;
      if ok && run.primary.Some? {
        generations := Fingerprinted(generations, run.primary.value, run.fingerprint);
      }
      inFlight := Some(Settled);
    }

    method RunResumed()
      requires inFlight.Some? && inFlight.value.AwaitingDrain? && inFlight.value.resumed
      modifies this
      ensures State() == DrainResumed(old(State()))
    {
      inFlight := if disposed then Some(Settled) else Some(Preparing(inFlight.value.request));
    }

    /** rollOver after the spawn. */
    method RollOverSpawned(handle: Option<Endpoint>)
      requires inFlight.Some? && inFlight.value.Spawning?
      modifies this
      ensures State() == Spawned(old(State()), handle)
    {
      if handle.None? {
        inFlight := Some(Settled);
        return;
      }
      var run := inFlight.value;
      var generation := Generation(nextId, handle.value, Starting, run.fingerprint, None);
      nextId := nextId + 1;
      generations := generations + [generation];
      inFlight := Some(CheckingHealth(run.primary, Handle(generation.id, handle.value)));
    }

    method RollOverChecked(healthy: bool)
      requires inFlight.Some? && inFlight.value.CheckingHealth?
      modifies this
      ensures State() == HealthKnown(old(State()), healthy)
    {
      var run := inFlight.value;
      if !healthy {
        generations := Without(generations, run.standby.id);
        inFlight := Some(ClosingStandby);
        return;
      }
      inFlight := Some(Registering(run.primary, run.standby));
    }

    method RollOverClosed()
      requires inFlight == Some(ClosingStandby)
      modifies this
      ensures State() == StandbyClosed(old(State()))
    {
      inFlight := Some(Settled);
    }

    method RollOverRegistered()
      requires inFlight.Some? && inFlight.value.Registering?
      modifies this
      ensures State() == Registered(old(State()))
    {
      inFlight := Some(ListingSessions(inFlight.value.primary, inFlight.value.standby));
    }

    method RollOverSessions(sessions: set<string>)
      requires inFlight.Some? && inFlight.value.ListingSessions?
      modifies this
      ensures State() == SessionsListed(old(State()), sessions)
    {
      var run := inFlight.value;
      if run.primary.None? {
        inFlight := Some(ListingRequests(None, run.standby, {}, {}, 0));
      } else {
        inFlight := Some(ListingRequests(run.primary, run.standby, sessions, {}, 4));
      }
    }

    /** One list of pendingRequestIds. */
    method PendingRequestIds(requests: set<string>, sessions: set<string>)
      requires inFlight.Some? && inFlight.value.ListingRequests?
      requires inFlight.value.surfaces > 0 && inFlight.value.primary.Some?
      modifies this
      ensures State() == SurfaceListed(old(State()), requests, sessions)
    {
      var run := inFlight.value;
      OwnSessions(sessions, run.primary.value);
      inFlight := Some(run.(requests := run.requests + requests, surfaces := run.surfaces - 1));
    }

    /** rollOver from the last list to its end. */
    method RollOverFlip(now: int)
      requires inFlight.Some? && inFlight.value.ListingRequests? && inFlight.value.surfaces == 0
      modifies this
      ensures State() == Flipped(old(State()), now)
    {
      var run := inFlight.value;
      FlipTo(run.standby, run.primary, run.sessions, run.requests);
      if run.primary.Some? {
        StartDrainMonitor(run.primary.value, now);
      }
      inFlight := Some(Settled);
    }

    method FlipTo(next: Handle, previous: Option<Id>, drainingSessions: set<string>, pinnedRequestIds: set<string>)
      modifies this
      ensures State() == Flip(old(State()), next, previous, drainingSessions, pinnedRequestIds)
    {
      hide Assign, PointedAt, AddOwner;
      generations := Assign(generations, next.id, Primary, None);
      if previous.Some? {
        Demote(previous.value, drainingSessions, pinnedRequestIds);
      }
      PointAt(next.endpoint);
    }

    /** The old primary starts draining, with the sessions and prompts it keeps. */
    method Demote(previous: Id, drainingSessions: set<string>, pinnedRequestIds: set<string>)
      modifies this`generations, this`activeSessionsByGeneration, this`sessionOwnership, this`pinnedRequests
      ensures generations == Assign(old(generations), previous, Draining, None)
      ensures activeSessionsByGeneration == old(activeSessionsByGeneration)[previous := drainingSessions]
      ensures sessionOwnership == AddOwner(old(sessionOwnership), drainingSessions, previous)
      ensures pinnedRequests == AddOwner(old(pinnedRequests), pinnedRequestIds, previous)
    {
      hide Assign, AddOwner;
      generations := Assign(generations, previous, Draining, None);
      activeSessionsByGeneration := activeSessionsByGeneration[previous := drainingSessions];
      OwnSessions(drainingSessions, previous);
      PinRequests(pinnedRequestIds, previous);
    }

    /** The end of flip: the config and every local workspace point at the new engine. */
    method PointAt(endpoint: Endpoint)
      modifies this`config
      ensures config == PointedAt(old(config), endpoint)
    {
      var workspaces := config.workspaces;
      for i := 0 to |workspaces|
        invariant |workspaces| == |config.workspaces|
        invariant forall j | 0 <= j < i :: workspaces[j] == PointedAt(config, endpoint).workspaces[j]
        invariant forall j | i <= j < |workspaces| :: workspaces[j] == config.workspaces[j]
      {
        if !workspaces[i].remote {
          workspaces := workspaces[i := workspaces[i].(endpoint := endpoint, directory := workspaces[i].path)];
        }
      }
      assert workspaces == PointedAt(config, endpoint).workspaces;
      config := Config(endpoint, workspaces);
    }

    /** The finally block of requestRollover. */
    method SettleRollover()
      requires inFlight == Some(Settled)
      modifies this
      ensures State() == Settle(old(State()))
    {
      inFlight := None;
      var next := pendingRollover;
      pendingRollover := None;
      if next.Some? && !disposed {
        RequestRollover(next.value);
      }
    }

    // ------------------------------------------------------------------- drains

    method StartDrainMonitor(id: Id, now: int)
      modifies this
      ensures State() == EnginePoolModel.StartDrainMonitor(old(State()), id, now)
    {
      hide StatusOf, Assign;
      generations := Assign(generations, id, StatusOf(generations, id), Some(now + settings.drainTimeoutMs));
      Tick(id);
    }

    /** A drain tick up to its await. */
    method Tick(id: Id)
      modifies this
      ensures State() == TickStarted(old(State()), id)
    {
      if StatusOf(generations, id) != Draining {
        return;
      }
      polls := polls + multiset{id};
    }

    /** The same tick with the session list in hand. */
    method TickPolled(id: Id, remaining: set<string>, now: int)
      requires id in polls
      modifies this
      ensures State() == PollReturned(old(State()), id, remaining, now)
    {
      polls := polls - multiset{id};
      UpdateActiveSessions(id, remaining);
      if remaining == {} {
        Retire(id, Idle);
        return;
      }
      var generation := FindId(generations, id);
      if generation.Some? && generation.value.drainDeadline.Some? && now >= generation.value.drainDeadline.value {
        aborts := aborts + multiset{id};
      }
    }

    method UpdateActiveSessions(id: Id, sessions: set<string>)
      modifies this
      ensures State() == EnginePoolModel.UpdateActiveSessions(old(State()), id, sessions)
    {
      activeSessionsByGeneration := activeSessionsByGeneration[id := sessions];
      DropSessions(id, sessions);
      OwnSessions(sessions, id);
    }

    method TickAborted(id: Id)
      requires id in aborts
      modifies this
      ensures State() == AbortsDone(old(State()), id)
    {
      aborts := aborts - multiset{id};
      Retire(id, Forced);
    }

    /** retire up to its first await. */
    method Retire(id: Id, cause: Cause)
      modifies this
      ensures State() == RetireStarted(old(State()), id, cause)
    {
      hide StatusOf, Assign, DropOwner;
      if StatusOf(generations, id) == Dead {
        return;
      }
      generations := Assign(generations, id, Dead, None);
      activeSessionsByGeneration := activeSessionsByGeneration - {id};
      Disown(id);
      closing := closing[id := cause];
    }

    /** The engine loses its sessions and prompts. */
    method Disown(id: Id)
      modifies this`sessionOwnership, this`pinnedRequests
      ensures sessionOwnership == DropOwner(old(sessionOwnership), id)
      ensures pinnedRequests == DropOwner(old(pinnedRequests), id)
    {
      DropSessions(id, {});
      assert sessionOwnership == DropOwner(old(sessionOwnership), id);
      DropPins(id);
    }

    /** retire after the engine closed. */
    method RetireClosed(id: Id)
      requires id in closing
      modifies this
      ensures State() == Closed(old(State()), id)
    {
      var cause := closing[id];
      closing := closing - {id};
      generations := Without(generations, id);
      if inFlight.Some? && inFlight.value.AwaitingDrain? {
        inFlight := Some(inFlight.value.(resumed := true));
      }
      var next := pendingRollover;
      if cause != Shutdown && next.Some? && inFlight.None? && !disposed {
        pendingRollover := None;
        RequestRollover(next.value);
      }
    }

    // ---------------------------------------------------- recovery and disposal

    method RecoverDeadPrimary()
      modifies this
      ensures State() == RecoveryStarted(old(State()))
    {
      if disposed || recovery.Some? {
        return;
      }
      var previous := Find(generations, Primary);
      recovery := Some(if previous.Some? then ClosingOld(previous.value.id) else SpawningReplacement);
    }

    method RecoveryClosed(ok: bool)
      requires recovery.Some? && recovery.value.ClosingOld?
      modifies this
      ensures State() == OldClosed(old(State()), ok)
    {
      if !ok {
        recovery := None;
        return;
      }
      generations := Without(generations, recovery.value.previous);
      recovery := Some(SpawningReplacement);
    }

    method RecoverySpawned(handle: Option<Endpoint>)
      requires recovery == Some(SpawningReplacement)
      modifies this
      ensures State() == ReplacementSpawned(old(State()), handle)
    {
      recovery := if handle.Some? then Some(CheckingReplacement(handle.value)) else None;
    }

    method RecoveryChecked(healthy: bool, fingerprint: string)
      requires recovery.Some? && recovery.value.CheckingReplacement?
      modifies this
      ensures State() == ReplacementChecked(old(State()), healthy, fingerprint)
    {
      if !healthy {
        recovery := None;
        return;
      }
      var generation := Generation(nextId, recovery.value.endpoint, Starting, fingerprint, None);
      nextId := nextId + 1;
      generations := generations + [generation];
      recovery := Some(RegisteringReplacement(Handle(generation.id, generation.endpoint)));
    }

    method RecoveryRegistered()
      requires recovery.Some? && recovery.value.RegisteringReplacement?
      modifies this
      ensures State() == ReplacementRegistered(old(State()))
    {
      FlipTo(recovery.value.replacement, None, {}, {});
      recovery := None;
    }

    method DisposeAll()
      modifies this
      ensures State() == DisposeStarted(old(State()))
    {
      disposed := true;
      pendingRollover := None;
      disposal := disposal + Ids(generations, true) + Ids(generations, false);
    }

    method DisposeRetire()
      requires disposal != []
      modifies this
      ensures State() == DisposeNext(old(State()))
    {
      var id := disposal[0];
      disposal := disposal[1..];
      Retire(id, Shutdown);
    }

    method DisposeEnd()
      requires disposed && disposal == []
      modifies this
      ensures State() == DisposeEnded(old(State()))
    {
      generations := [];
    }

    // ------------------------------------------------------------- whole runs

    /** A segment of a rollover up to its spawn: the suspended continuation resumes, if it
        is the one that waits for this answer. */
    method ResumeRun(e: Event)
      requires e.EPrepared? || e.EBusyKnown? || e.EReloaded? || e.EDrainResumed? || e.ESettle?
      modifies this
      ensures State() == Next(old(State()), e)
    {
      hide Decide, Find, PrimaryId, Fingerprinted, Merge;
      match e
      case EPrepared(fingerprint, now) =>
        if inFlight.Some? && inFlight.value.Preparing? { RunPrepared(inFlight.value.request, fingerprint, now); }
      case EBusyKnown(busy, now) =>
        if inFlight.Some? && inFlight.value.ProbingBusy? { RunProbed(busy, now); }
      case EReloaded(ok) =>
        if inFlight.Some? && inFlight.value.Reloading? { RunReloaded(ok); }
      case EDrainResumed =>
        if inFlight.Some? && inFlight.value.AwaitingDrain? && inFlight.value.resumed { RunResumed(); }
      case ESettle =>
        if inFlight == Some(Settled) { SettleRollover(); }
    }

    /** ... and from its spawn on. */
    method ResumeRollOver(e: Event)
      requires e.ESpawned? || e.EHealthKnown? || e.EStandbyClosed? || e.ERegistered? || e.ESessionsListed? ||
               e.ESurfaceListed? || e.EFlipped?
      modifies this
      ensures State() == Next(old(State()), e)
    {
      hide Without, AddOwner, Flip, EnginePoolModel.StartDrainMonitor;
      match e
      case ESpawned(handle) =>
        if inFlight.Some? && inFlight.value.Spawning? { RollOverSpawned(handle); }
      case EHealthKnown(healthy) =>
        if inFlight.Some? && inFlight.value.CheckingHealth? { RollOverChecked(healthy); }
      case EStandbyClosed =>
        if inFlight == Some(ClosingStandby) { RollOverClosed(); }
      case ERegistered =>
        if inFlight.Some? && inFlight.value.Registering? { RollOverRegistered(); }
      case ESessionsListed(sessions) =>
        if inFlight.Some? && inFlight.value.ListingSessions? { RollOverSessions(sessions); }
      case ESurfaceListed(requests, sessions) =>
        if inFlight.Some? && inFlight.value.ListingRequests? && inFlight.value.surfaces > 0 && inFlight.value.primary.Some? {
          PendingRequestIds(requests, sessions);
        }
      case EFlipped(now) =>
        if inFlight.Some? && inFlight.value.ListingRequests? && inFlight.value.surfaces == 0 { RollOverFlip(now); }
    }

    /** A drain tick or a retirement resumes. */
    method ResumeTick(e: Event)
      requires e.ETickStarted? || e.EPollReturned? || e.EAbortsDone? || e.EClosed?
      modifies this
      ensures State() == Next(old(State()), e)
    {
      hide StatusOf, EnginePoolModel.UpdateActiveSessions, RetireStarted, PastDeadline, Without, Merge;
      match e
      case ETickStarted(id) => Tick(id);
      case EPollReturned(id, remaining, now) =>
        if id in polls { TickPolled(id, remaining, now); }
      case EAbortsDone(id) =>
        if id in aborts { TickAborted(id); }
      case EClosed(id) =>
        if id in closing { RetireClosed(id); }
    }

    /** A recovery resumes. */
    method ResumeRecovery(e: Event)
      requires e.EOldClosed? || e.EReplacementSpawned? || e.EReplacementChecked? || e.EReplacementRegistered?
      modifies this
      ensures State() == Next(old(State()), e)
    {
      hide Without, Flip;
      match e
      case EOldClosed(ok) =>
        if recovery.Some? && recovery.value.ClosingOld? { RecoveryClosed(ok); }
      case EReplacementSpawned(handle) =>
        if recovery == Some(SpawningReplacement) { RecoverySpawned(handle); }
      case EReplacementChecked(healthy, fingerprint) =>
        if recovery.Some? && recovery.value.CheckingReplacement? { RecoveryChecked(healthy, fingerprint); }
      case EReplacementRegistered =>
        if recovery.Some? && recovery.value.RegisteringReplacement? { RecoveryRegistered(); }
    }

    /** A disposal resumes. */
    method ResumeDisposal(e: Event)
      requires e.EDisposeNext? || e.EDisposeEnded?
      modifies this
      ensures State() == Next(old(State()), e)
    {
      hide RetireStarted;
      match e
      case EDisposeNext =>
        if disposal != [] { DisposeRetire(); }
      case EDisposeEnded =>
        if disposed && disposal == [] { DisposeEnd(); }
    }

    /** One event: a call from outside, or an awaited answer. */
    method Step(e: Event)
      modifies this
      ensures State() == Next(old(State()), e)
    {
      match e
      case ERequest(request) => RequestRollover(request);
      case ERoute(path) => var _ := RouteRequest(path);
      case EForward(id, payload) => var _ := ShouldForwardEvent(id, payload);
      case ERecoveryStarted => RecoverDeadPrimary();
      case EDisposeStarted => DisposeAll();
      case EPrepared(_, _) => ResumeRun(e);
      case EBusyKnown(_, _) => ResumeRun(e);
      case EReloaded(_) => ResumeRun(e);
      case EDrainResumed => ResumeRun(e);
      case ESettle => ResumeRun(e);
      case ESpawned(_) => ResumeRollOver(e);
      case EHealthKnown(_) => ResumeRollOver(e);
      case EStandbyClosed => ResumeRollOver(e);
      case ERegistered => ResumeRollOver(e);
      case ESessionsListed(_) => ResumeRollOver(e);
      case ESurfaceListed(_, _) => ResumeRollOver(e);
      case EFlipped(_) => ResumeRollOver(e);
      case ETickStarted(_) => ResumeTick(e);
      case EPollReturned(_, _, _) => ResumeTick(e);
      case EAbortsDone(_) => ResumeTick(e);
      case EClosed(_) => ResumeTick(e);
      case EDisposeNext => ResumeDisposal(e);
      case EDisposeEnded => ResumeDisposal(e);
      case _ => ResumeRecovery(e);
    }

    /** Any interleaving of events: the object ends where the machine does. */
    method RunAll(events: seq<Event>)
      modifies this
      ensures State() == After(old(State()), events)
    {
      hide Next;
      ghost var start := State();
      for i := 0 to |events|
        invariant After(State(), events[i..]) == After(start, events)
      {
        ghost var before := State();
        Step(events[i]);
        assert events[i..][0] == events[i] && events[i..][1..] == events[i + 1..];
        assert After(before, events[i..]) == After(Next(before, events[i]), events[i + 1..]);
      }
    }
  }
}
