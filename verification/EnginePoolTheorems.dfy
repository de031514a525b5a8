/** What the engine pool promises over every run: routing, event filtering, ownership,
    spawns and coalescing. */
module EnginePoolTheorems {
  import opened Wrappers
  import opened EnginePoolFrames
  import opened EnginePoolModel
  import opened EnginePoolInvariants
  import opened EnginePoolLifecycle

  // ------------------------------------------------------------ every step

  lemma StepKeeps(p: Pool, e: Event)
    requires Inv(p) && Serial(p) && Serial(Next(p, e)) && Fresh(p, e)
    ensures Inv(Next(p, e))
  {
    hide Inv, Serial, RequestRollover, Prepared, BusyKnown, Reloaded, DrainResumed, Spawned, HealthKnown,
         StandbyClosed, Registered, SessionsListed, SurfaceListed, Flipped, Settle, TickStarted, PollReturned,
         AbortsDone, Closed, RouteRequest, ForwardEvent, RecoveryStarted, OldClosed, ReplacementSpawned,
         ReplacementChecked, ReplacementRegistered, DisposeStarted, DisposeNext, DisposeEnded;
    match e
    case ERequest(request) => RequestKeeps(p, request);
    case EPrepared(fingerprint, now) => PreparedKeeps(p, fingerprint, now);
    case EBusyKnown(busy, now) => BusyKnownKeeps(p, busy, now);
    case EReloaded(ok) => ReloadedKeeps(p, ok);
    case EDrainResumed => DrainResumedKeeps(p);
    case ESpawned(handle) => SpawnedKeeps(p, handle);
    case EHealthKnown(healthy) => HealthKnownKeeps(p, healthy);
    case EStandbyClosed => StandbyClosedKeeps(p);
    case ERegistered => RegisteredKeeps(p);
    case ESessionsListed(sessions) => SessionsListedKeeps(p, sessions);
    case ESurfaceListed(requests, sessions) => SurfaceListedKeeps(p, requests, sessions);
    case EFlipped(now) => FlippedKeeps(p, now);
    case ESettle => SettleKeeps(p);
    case ETickStarted(id) => TickStartedKeeps(p, id);
    case EPollReturned(id, remaining, now) => PollReturnedKeeps(p, id, remaining, now);
    case EAbortsDone(id) => AbortsDoneKeeps(p, id);
    case EClosed(id) => ClosedKeeps(p, id);
    case ERoute(path) => RouteKeeps(p, path);
    case EForward(id, payload) => ForwardKeeps(p, id, payload);
    case ERecoveryStarted => RecoveryStartedKeeps(p);
    case EOldClosed(ok) => OldClosedKeeps(p, ok);
    case EReplacementSpawned(handle) => ReplacementSpawnedKeeps(p, handle);
    case EReplacementChecked(healthy, fingerprint) => ReplacementCheckedKeeps(p, healthy, fingerprint);
    case EReplacementRegistered => ReplacementRegisteredKeeps(p);
    case EDisposeStarted => DisposeStartedKeeps(p);
    case EDisposeNext => DisposeNextKeeps(p);
    case EDisposeEnded => DisposeEndedKeeps(p);
  }

  // ---------------------------------------------------------------- every run

  /** The pool as the server starts it: empty, then adopting the first engine. */
  function Adopted(settings: Settings, config: Config, endpoint: Endpoint, fingerprint: string, now: int): Pool {
    Adopt(Empty(settings, config), endpoint, fingerprint, now)
  }

  lemma AdoptedInv(settings: Settings, config: Config, endpoint: Endpoint, fingerprint: string, now: int)
    ensures var p := Adopted(settings, config, endpoint, fingerprint, now);
      && Inv(p) && Has(TableOf(p.generations), 0, Primary)
      && (Points(config, endpoint) ==> Follows(p))
  {
    var p := Adopted(settings, config, endpoint, fingerprint, now);
    assert TableOf(p.generations) == map[0 := Generation(0, endpoint, Primary, fingerprint, None)];
  }

  lemma {:induction false} RunKeeps(p: Pool, events: seq<Event>)
    requires Inv(p) && SerialRun(p, events)
    ensures Inv(After(p, events)) && Serial(After(p, events))
    decreases |events|
  {
    if events != [] {
      StepKeeps(p, events[0]);
      hide Inv, Serial, Fresh, Next;
      RunKeeps(Next(p, events[0]), events[1..]);
    }
  }

  // -------------------------------------------------------------------- roles

  /** How many generations of the list have this status. */
  function Count(gens: seq<Generation>, status: Status): nat {
    if gens == [] then 0 else (if gens[0].status == status then 1 else 0) + Count(gens[1..], status)
  }

  lemma {:induction false} CountBelow(gens: seq<Generation>, status: Status)
    requires forall i, j | 0 <= i < j < |gens| :: !(gens[i].status == status && gens[j].status == status)
    ensures Count(gens, status) <= 1
    ensures Count(gens, status) == 0 <==> forall i | 0 <= i < |gens| :: gens[i].status != status
  {
    if gens != [] {
      assert forall i | 0 <= i < |gens[1..]| :: gens[1..][i] == gens[i + 1];
      CountBelow(gens[1..], status);
      assert forall i | 1 <= i < |gens| :: gens[i] == gens[1..][i - 1];
    }
  }

  lemma CountTable(gens: seq<Generation>, status: Status)
    requires DistinctIds(gens) && AtMostOne(TableOf(gens), status)
    ensures Count(gens, status) <= 1
    ensures Count(gens, status) == 0 <==> NoneIs(TableOf(gens), status)
  {
    TableKeys(gens);
    forall i | 0 <= i < |gens| ensures gens[i].id in TableOf(gens) && TableOf(gens)[gens[i].id] == gens[i] {
      TableMember(gens, i);
    }
    CountBelow(gens, status);
  }

  // ------------------------------------------------------------------- events

  /** While one engine drains, each event reaches the client through exactly one of the
      two streams, in whichever order the two streams deliver it. */
  lemma ForwardsOnce(p: Pool, primary: Id, draining: Id, e: Payload)
    requires Inv(p) && Has(TableOf(p.generations), primary, Primary) && Has(TableOf(p.generations), draining, Draining)
    ensures ForwardEvent(p, primary, e).1 != ForwardEvent(p, draining, e).1
    ensures ForwardEvent(ForwardEvent(p, draining, e).0, primary, e).1 == ForwardEvent(p, primary, e).1
    ensures ForwardEvent(ForwardEvent(p, primary, e).0, draining, e).1 == ForwardEvent(p, draining, e).1
  {
    TableFinds(p.generations, primary);
    TableFinds(p.generations, draining);
    OwnersDrain(p, draining);
    hide Inv, TableOf;
    var q := ForwardEvent(p, draining, e).0;
    if OwnsSession(p, draining, e) {
      var s :| s in e.sessions && s in p.sessionOwnership && p.sessionOwnership[s] == draining;
      assert ForeignSession(p, primary, e) && ForeignSession(q, primary, e);
    } else {
      assert q == p;
      assert ForeignSession(p, primary, e) == false;
      assert ForeignRequest(p, primary, e) == OwnsRequest(p, draining, e);
    }
  }

  /** In every run from startup, while one engine drains beside the primary, every event is
      forwarded by exactly one of the two streams. */
  lemma EveryEventOnce(settings: Settings, config: Config, endpoint: Endpoint, fingerprint: string, now: int,
                       events: seq<Event>, primary: Generation, draining: Generation, e: Payload)
    requires SerialRun(Adopted(settings, config, endpoint, fingerprint, now), events)
    requires var p := After(Adopted(settings, config, endpoint, fingerprint, now), events);
      primary in p.generations && primary.status == Primary && draining in p.generations && draining.status == Draining
    ensures var p := After(Adopted(settings, config, endpoint, fingerprint, now), events);
      ForwardEvent(p, primary.id, e).1 != ForwardEvent(p, draining.id, e).1
  {
    var start := Adopted(settings, config, endpoint, fingerprint, now);
    AdoptedInv(settings, config, endpoint, fingerprint, now);
    RunKeeps(start, events);
    hide Adopted, After, ForwardEvent, SerialRun, Serial;
    var p := After(start, events);
    Listed(p, primary);
    Listed(p, draining);
    ForwardsOnce(p, primary.id, draining.id, e);
  }

  lemma Listed(p: Pool, g: Generation)
    requires Inv(p) && g in p.generations
    ensures Has(TableOf(p.generations), g.id, g.status)
  {
    var i :| 0 <= i < |p.generations| && p.generations[i] == g;
    TableMember(p.generations, i);
  }

  /** In every run from startup with a primary, all requests of a session that is recorded
      running on an engine go to that engine, which drains, and change nothing. */
  lemma RunningSessionsRoute(settings: Settings, config: Config, endpoint: Endpoint, fingerprint: string, now: int,
                             events: seq<Event>, path: Path, session: string, id: Id)
    requires SerialRun(Adopted(settings, config, endpoint, fingerprint, now), events)
    requires var p := After(Adopted(settings, config, endpoint, fingerprint, now), events);
      Count(p.generations, Primary) == 1 && Active(p, id, session) && path.session == Some(session)
    ensures var p := After(Adopted(settings, config, endpoint, fingerprint, now), events);
      && StatusOf(p.generations, id) == Draining && Owns(p, id, session)
      && RouteRequest(p, path) == (p, Some(Route(FindId(p.generations, id).value, None)))
  {
    AdoptedInv(settings, config, endpoint, fingerprint, now);
    RunKeeps(Adopted(settings, config, endpoint, fingerprint, now), events);
    var p := After(Adopted(settings, config, endpoint, fingerprint, now), events);
    hide Adopted, After, RouteRequest, SerialRun, Serial, StatusOf, Inv, Active, Owns, Count, Next;
    RunningSessionStays(p, path, session, id);
  }

  /** While an engine drains it is the only owner of sessions and prompts. */
  lemma OwnersDrain(p: Pool, draining: Id)
    requires Inv(p) && Has(TableOf(p.generations), draining, Draining)
    ensures forall s <- p.sessionOwnership :: p.sessionOwnership[s] == draining
    ensures forall r <- p.pinnedRequests :: p.pinnedRequests[r] == draining
    ensures forall id <- p.activeSessions :: id == draining
  {
  }

  // ------------------------------------------------------------------ routing

  /** Every route leads to a routable engine of the list; a fallback is offered only when
      the target is the primary, and is then the draining engine. */
  lemma RouteTargets(p: Pool, path: Path)
    ensures RouteRequest(p, path).1.None? <==> Count(p.generations, Primary) == 0
    ensures RouteRequest(p, path).1.Some? ==>
      var route := RouteRequest(p, path).1.value;
      && route.target in p.generations && Routable(route.target)
      && (route.fallback.Some? ==>
            path.legacyReply && route.target.status == Primary &&
            route.fallback.value in p.generations && route.fallback.value.status == Draining)
  {
    CountZero(p.generations, Primary);
    hide AddOwner, Active;
  }

  lemma {:induction false} CountZero(gens: seq<Generation>, status: Status)
    ensures Count(gens, status) == 0 <==> Find(gens, status).None?
  {
    if gens != [] { CountZero(gens[1..], status); }
  }

  /** Requests of a session that runs on the draining engine stay there. */
  lemma RunningSessionStays(p: Pool, path: Path, session: string, id: Id)
    requires Inv(p) && Count(p.generations, Primary) == 1
    requires Active(p, id, session) && path.session == Some(session)
    ensures StatusOf(p.generations, id) == Draining && Owns(p, id, session)
    ensures RouteRequest(p, path) == (p, Some(Route(FindId(p.generations, id).value, None)))
  {
    TableFinds(p.generations, id);
    CountZero(p.generations, Primary);
  }

  /** A prompt to a session the draining engine owns but does not run moves to the primary. */
  lemma IdlePromptMoves(p: Pool, path: Path, session: string)
    requires Inv(p) && Count(p.generations, Primary) == 1
    requires path.session == Some(session) && path.promptish && path.request.None?
    requires session in p.sessionOwnership && !Active(p, p.sessionOwnership[session], session)
    ensures var (q, route) := RouteRequest(p, path);
      && route.Some? && route.value.target.status == Primary
      && session !in q.sessionOwnership
  {
    TableFinds(p.generations, p.sessionOwnership[session]);
    CountZero(p.generations, Primary);
  }

  predicate Owns(p: Pool, id: Id, session: string) {
    session in p.sessionOwnership && p.sessionOwnership[session] == id
  }

  predicate Reports(e: Event, id: Id, session: string) {
    e.EPollReturned? && e.id == id && session in e.remaining
  }

  /** Events that leave the session owners alone. */
  predicate LeavesOwners(e: Event) {
    !e.ESurfaceListed? && !e.EFlipped? && !e.EPollReturned? && !e.EAbortsDone? && !e.EDisposeNext? && !e.ERoute?
  }

  lemma OwnersLeft(p: Pool, e: Event)
    requires LeavesOwners(e)
    ensures Next(p, e).sessionOwnership == p.sessionOwnership
  {
    if OfRun(e) {
      RunRolls(p, e);
      hide Next;
    } else {
      hide Closed, ForwardEvent, ReplacementRegistered, StatusOf, Without, PrimaryId, Ids;
      match e
      case EClosed(id) => ClosedLeavesOwners(p, id);
      case EForward(id, payload) => ForwardTouchesPins(p, id, payload);
      case EReplacementRegistered => ReplacementTouches(p);
      case _ =>
    }
  }

  lemma ClosedLeavesOwners(p: Pool, id: Id)
    ensures Closed(p, id).sessionOwnership == p.sessionOwnership
  {
    hide Without, Merge;
  }

  lemma FlippedOwners(p: Pool, now: int)
    requires FlipReady(p)
    ensures Flipped(p, now).sessionOwnership ==
      if p.inFlight.value.primary.Some?
      then AddOwner(p.sessionOwnership, p.inFlight.value.sessions, p.inFlight.value.primary.value)
      else p.sessionOwnership
  {
    hide Assign, StatusOf, PointedAt, AddOwner;
  }

  lemma PollGrows(p: Pool, id: Id, remaining: set<string>, now: int, owner: Id, session: string)
    requires !Owns(p, owner, session) && Owns(PollReturned(p, id, remaining, now), owner, session)
    ensures owner == id && session in remaining
  {
    hide UpdateActiveSessions, RetireStarted, PastDeadline;
    var q := p.(polls := p.polls - multiset{id});
    UpdateGrows(q, id, remaining, owner, session);
    if Owns(RetireStarted(UpdateActiveSessions(q, id, remaining), id, Idle), owner, session) {
      RetireShrinks(UpdateActiveSessions(q, id, remaining), id, Idle, owner, session);
    }
  }

  lemma UpdateGrows(p: Pool, id: Id, remaining: set<string>, owner: Id, session: string)
    ensures Owns(UpdateActiveSessions(p, id, remaining), owner, session) ==>
            Owns(p, owner, session) || (owner == id && session in remaining)
  {
  }

  lemma RetireShrinks(p: Pool, id: Id, cause: Cause, owner: Id, session: string)
    requires Owns(RetireStarted(p, id, cause), owner, session)
    ensures Owns(p, owner, session)
  {
    hide Assign, StatusOf;
  }

  lemma RouteShrinks(p: Pool, path: Path, owner: Id, session: string)
    requires Owns(RouteRequest(p, path).0, owner, session)
    ensures Owns(p, owner, session)
  {
    hide Find, GenerationFor, Active;
  }

  /** Only three events hand a session to an engine: its own drain poll, and the lists
      and the flip of the rollover that demotes it. */
  lemma OwnershipGrows(p: Pool, e: Event, id: Id, session: string)
    requires !Owns(p, id, session) && Owns(Next(p, e), id, session)
    ensures Reports(e, id, session) || ((e.ESurfaceListed? || e.EFlipped?) && Collecting(p.inFlight, id))
  {
    hide Flipped, PollReturned, RetireStarted, RouteRequest;
    match e
    case EFlipped(now) => if FlipReady(p) { FlippedOwners(p, now); } else { FlipIdle(p, now); }
    case EPollReturned(g, remaining, now) => PollGrows(p, g, remaining, now, id, session);
    case EAbortsDone(g) =>
      if g in p.aborts { RetireShrinks(p.(aborts := p.aborts - multiset{g}), g, Forced, id, session); }
    case EDisposeNext =>
      if p.disposal != [] {
        RetireShrinks(p.(disposal := p.disposal[1..]), p.disposal[0], Shutdown, id, session);
      }
    case ERoute(path) => RouteShrinks(p, path, id, session);
    case ESurfaceListed(requests, sessions) =>
    case _ =>
      OwnersLeft(p, e);
      hide Next;
  }

  lemma FlipIdle(p: Pool, now: int)
    requires !FlipReady(p)
    ensures Flipped(p, now) == p
  {
  }

  /** The engine drains in every state of the run. */
  ghost predicate DrainsThroughout(p: Pool, events: seq<Event>, id: Id)
    decreases |events|
  {
    && Has(TableOf(p.generations), id, Draining)
    && (events == [] || DrainsThroughout(Next(p, events[0]), events[1..], id))
  }

  /** A session that left a draining engine comes back to it only if a later poll of that
      engine reports the session running. */
  lemma {:induction false} MovedSessionReturns(p: Pool, events: seq<Event>, id: Id, session: string)
    requires Inv(p) && SerialRun(p, events) && DrainsThroughout(p, events, id)
    requires !Owns(p, id, session) && Owns(After(p, events), id, session)
    ensures exists e <- events :: Reports(e, id, session)
    decreases |events|
  {
    var q := Next(p, events[0]);
    if Owns(q, id, session) {
      OwnershipGrows(p, events[0], id, session);
      assert NoneIs(TableOf(p.generations), Draining) || Reports(events[0], id, session);
    } else {
      StepKeeps(p, events[0]);
      hide Inv, Serial, Fresh, Next, Owns;
      MovedSessionReturns(q, events[1..], id, session);
      var e :| e in events[1..] && Reports(e, id, session);
      assert e in events;
    }
  }

  // ------------------------------------------------------------------- spawns

  /** The request of a run that has not decided yet. */
  function Asked(run: Run): Option<Request> {
    match run
    case Preparing(request) => Some(request)
    case ProbingBusy(request, _, _) => Some(request)
    case _ => None
  }

  predicate AtSpawn(p: Pool) {
    p.inFlight.Some? && p.inFlight.value.Spawning?
  }

  lemma DecideSpawns(p: Pool, request: Request, fingerprint: string, primary: Option<Id>, now: int)
    requires AtSpawn(Decide(p, request, fingerprint, primary, now))
    ensures Find(p.generations, Draining).None? && Decide(p, request, fingerprint, primary, now).lastSpawnAt == now
    ensures request.manual || request.forceStandby || now - p.lastSpawnAt >= p.settings.minSpawnIntervalMs
  {
    hide Find;
  }

  lemma FlipSettles(p: Pool, now: int)
    requires FlipReady(p)
    ensures Flipped(p, now).inFlight == Some(Settled)
  {
    hide Assign, PointedAt, AddOwner, StartDrainMonitor;
  }

  /** Retirements never put a run at its spawn. */
  lemma RetireSpawns(p: Pool, e: Event)
    requires e.EPollReturned? || e.EAbortsDone? || e.EDisposeNext? || e.EClosed?
    ensures AtSpawn(Next(p, e)) ==> AtSpawn(p)
  {
    hide PollReturned, RetireStarted, Without, Merge;
    match e
    case EPollReturned(id, remaining, now) => PollTouches(p, id, remaining, now);
    case EAbortsDone(id) => RetireTouches(p.(aborts := p.aborts - multiset{id}), id, Forced);
    case EDisposeNext =>
      if p.disposal != [] { RetireTouches(p.(disposal := p.disposal[1..]), p.disposal[0], Shutdown); }
    case EClosed(_) =>
  }

  /** The other segments of a run do not start a spawn. */
  lemma RunSpawns(p: Pool, e: Event)
    requires OfRun(e) && !e.EPrepared? && !e.EBusyKnown? && !AtSpawn(p)
    ensures !AtSpawn(Next(p, e))
  {
    hide Prepared, BusyKnown, Without, Fingerprinted, Merge;
  }

  /** Nor does any segment outside it. */
  lemma OthersSpawn(p: Pool, e: Event)
    requires !OfRun(e) && !AtSpawn(p)
    ensures !AtSpawn(Next(p, e))
  {
    hide Flipped, ReplacementRegistered, RouteRequest, ForwardEvent, StatusOf, Without, PrimaryId, Ids, AddOwner,
         PollReturned, AbortsDone, DisposeNext, Closed;
    match e
    case EFlipped(now) => if FlipReady(p) { FlipSettles(p, now); } else { FlipIdle(p, now); }
    case EReplacementRegistered => ReplacementTouches(p);
    case ERoute(path) => RouteTouchesOwners(p, path);
    case EForward(id, payload) => ForwardTouchesPins(p, id, payload);
    case EPollReturned(_, _, _) => RetireSpawns(p, e);
    case EAbortsDone(_) => RetireSpawns(p, e);
    case EDisposeNext => RetireSpawns(p, e);
    case EClosed(_) => RetireSpawns(p, e);
    case _ =>
  }

  /** In every step, a rollover starts spawning only while no engine drains, and then at the
      time it records; unless its request is manual or forced, the minimum interval has
      passed since the last spawn. */
  lemma SpawnStarts(p: Pool, e: Event)
    requires !AtSpawn(p) && AtSpawn(Next(p, e))
    ensures p.inFlight.Some? && Asked(p.inFlight.value).Some? && (e.EPrepared? || e.EBusyKnown?)
    ensures var request := Asked(p.inFlight.value).value;
      && Find(p.generations, Draining).None? && Next(p, e).lastSpawnAt == e.now
      && (request.manual || request.forceStandby || e.now - p.lastSpawnAt >= p.settings.minSpawnIntervalMs)
  {
    hide Find, PrimaryId, Decide;
    match e
    case EPrepared(fingerprint, now) =>
      DecideSpawns(p, p.inFlight.value.request, fingerprint, PrimaryId(p.generations), now);
    case EBusyKnown(busy, now) =>
      var run := p.inFlight.value;
      DecideSpawns(p, run.request, run.fingerprint, run.primary, now);
    case _ =>
      hide Next;
      if OfRun(e) { RunSpawns(p, e); } else { OthersSpawn(p, e); }
  }

  // --------------------------------------------------------------- coalescing

  ghost predicate Slotted(p: Pool) {
    p.pending.Some? ==> p.inFlight.Some?
  }

  lemma RunSlots(p: Pool, e: Event)
    requires Slotted(p) && OfRun(e)
    ensures Slotted(Next(p, e))
  {
    hide Prepared, BusyKnown, Without, Fingerprinted, Merge;
    match e
    case EPrepared(fingerprint, now) => PreparedMoves(p, fingerprint, now);
    case EBusyKnown(busy, now) => BusyMoves(p, busy, now);
    case _ =>
  }

  lemma RetireSlots(p: Pool, e: Event)
    requires Slotted(p) && (e.EPollReturned? || e.EAbortsDone? || e.EDisposeNext? || e.EClosed?)
    ensures Slotted(Next(p, e))
  {
    hide PollReturned, RetireStarted, Without, Merge;
    match e
    case EPollReturned(id, remaining, now) => PollTouches(p, id, remaining, now);
    case EAbortsDone(id) => RetireTouches(p.(aborts := p.aborts - multiset{id}), id, Forced);
    case EDisposeNext =>
      if p.disposal != [] { RetireTouches(p.(disposal := p.disposal[1..]), p.disposal[0], Shutdown); }
    case EClosed(_) =>
  }

  lemma StepSlots(p: Pool, e: Event)
    requires Slotted(p)
    ensures Slotted(Next(p, e))
  {
    if OfRun(e) {
      RunSlots(p, e);
    } else if e.EPollReturned? || e.EAbortsDone? || e.EDisposeNext? || e.EClosed? {
      RetireSlots(p, e);
    } else {
      hide Flipped, ReplacementRegistered, RouteRequest, ForwardEvent, StatusOf, Without, PrimaryId, Ids, AddOwner;
      match e
      case EFlipped(now) => FlippedTouches(p, now);
      case EReplacementRegistered => ReplacementTouches(p);
      case ERoute(path) => RouteTouchesOwners(p, path);
      case EForward(id, payload) => ForwardTouchesPins(p, id, payload);
      case _ =>
    }
  }

  /** In every run, whatever overlaps, a pending rollover has a run in flight that will
      pick it up; so the resume branch of retire never fires. */
  lemma {:induction false} PendingHasRun(p: Pool, events: seq<Event>)
    requires Slotted(p)
    ensures var q := After(p, events); Slotted(q) && forall id <- q.closing :: !ResumesPending(q, id)
    decreases |events|
  {
    if events != [] {
      StepSlots(p, events[0]);
      hide Slotted, Next;
      PendingHasRun(Next(p, events[0]), events[1..]);
    }
  }

  function Requests(events: seq<Event>): seq<Request> {
    if events == [] then []
    else (if events[0].ERequest? then [events[0].request] else []) + Requests(events[1..])
  }

  /** Between two parks: the run stays in flight, and only requests touch the slot. */
  ghost predicate Coalescing(p: Pool, events: seq<Event>)
    decreases |events|
  {
    && p.inFlight.Some? && !p.disposed
    && (events == [] ||
         ((events[0].ERequest? || Next(p, events[0]).pending == p.pending) && Coalescing(Next(p, events[0]), events[1..])))
  }

  /** The slot after merging requests into it, one after another. */
  function Merged(pending: Option<Request>, requests: seq<Request>): Option<Request>
    decreases |requests|
  {
    if requests == [] then pending else Merged(Some(Merge(requests[0], pending)), requests[1..])
  }

  lemma {:induction false} SlotIsMerged(p: Pool, events: seq<Event>)
    requires Coalescing(p, events)
    ensures After(p, events).pending == Merged(p.pending, Requests(events))
    decreases |events|
  {
    if events != [] {
      var q := Next(p, events[0]);
      if events[0].ERequest? {
        assert q.pending == Some(Merge(events[0].request, p.pending));
        assert Requests(events)[1..] == Requests(events[1..]);
      } else {
        assert q.pending == p.pending;
        assert Requests(events) == Requests(events[1..]);
      }
      hide Next, Merge, Requests;
      SlotIsMerged(q, events[1..]);
    }
  }

  lemma {:induction false} MergedFlags(pending: Option<Request>, requests: seq<Request>)
    requires requests != []
    ensures var slot := Merged(pending, requests);
      && slot.Some?
      && slot.value.reason == requests[|requests| - 1].reason
      && slot.value.workspace == requests[|requests| - 1].workspace
      && (slot.value.manual <==> (pending.Some? && pending.value.manual) || exists r <- requests :: r.manual)
      && (slot.value.forceStandby <==>
            (pending.Some? && pending.value.forceStandby) || exists r <- requests :: r.forceStandby)
      && (slot.value.awaitPostRefreshSync <==>
            (pending.Some? && pending.value.awaitPostRefreshSync) || exists r <- requests :: r.awaitPostRefreshSync)
    decreases |requests|
  {
    var first, rest := requests[0], requests[1..];
    assert forall r :: r in requests <==> r == first || r in rest;
    if rest != [] {
      MergedFlags(Some(Merge(first, pending)), rest);
    }
  }

  /** Every coalesced request leaves its mark: the slot carries the latest reason and
      workspace, and each flag that any of the merged requests carried. */
  lemma SlotMergesAll(p: Pool, events: seq<Event>)
    requires Coalescing(p, events)
    ensures var slot, requests := After(p, events).pending, Requests(events);
      if requests == [] then slot == p.pending
      else
        && slot.Some?
        && slot.value.reason == requests[|requests| - 1].reason
        && slot.value.workspace == requests[|requests| - 1].workspace
        && (slot.value.manual <==>
              (p.pending.Some? && p.pending.value.manual) || exists r <- requests :: r.manual)
        && (slot.value.forceStandby <==>
              (p.pending.Some? && p.pending.value.forceStandby) || exists r <- requests :: r.forceStandby)
        && (slot.value.awaitPostRefreshSync <==>
              (p.pending.Some? && p.pending.value.awaitPostRefreshSync) || exists r <- requests :: r.awaitPostRefreshSync)
  {
    hide After, Coalescing;
    SlotIsMerged(p, events);
    hide Requests;
    if Requests(events) != [] {
      MergedFlags(p.pending, Requests(events));
    }
  }
}
