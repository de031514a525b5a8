/** Which parts of the pool each step leaves alone. */
module EnginePoolFrames {
  import opened Wrappers
  import opened EnginePoolModel

  /** Segments of a rollover that only move its continuation. */
  predicate Moving(e: Event) {
    e.ERequest? || e.EPrepared? || e.EBusyKnown? || e.EDrainResumed? || e.EStandbyClosed? || e.ERegistered? ||
    e.ESessionsListed? || e.ESettle?
  }

  /** Segments of a rollover up to its flip. */
  predicate OfRun(e: Event) {
    Moving(e) || e.EReloaded? || e.ESpawned? || e.EHealthKnown?
  }

  ghost predicate Moves(p: Pool, q: Pool) {
    q == p.(inFlight := q.inFlight, pending := q.pending, lastSpawnAt := q.lastSpawnAt)
  }

  ghost predicate Rolls(p: Pool, q: Pool) {
    q == p.(inFlight := q.inFlight, pending := q.pending, lastSpawnAt := q.lastSpawnAt,
            generations := q.generations, nextId := q.nextId)
  }

  lemma DecideMoves(p: Pool, request: Request, fingerprint: string, primary: Option<Id>, now: int)
    ensures Moves(p, Decide(p, request, fingerprint, primary, now))
    ensures Decide(p, request, fingerprint, primary, now).inFlight.Some?
  {
    hide Find;
  }

  lemma RequestMoves(p: Pool, request: Request)
    ensures Moves(p, RequestRollover(p, request))
  {
    hide Merge;
  }

  lemma PreparedMoves(p: Pool, fingerprint: string, now: int)
    ensures Moves(p, Prepared(p, fingerprint, now))
    ensures if p.inFlight.Some? then Prepared(p, fingerprint, now).inFlight.Some? else Prepared(p, fingerprint, now) == p
  {
    hide Find, PrimaryId, Decide;
    if p.inFlight.Some? && p.inFlight.value.Preparing? {
      DecideMoves(p, p.inFlight.value.request, fingerprint, PrimaryId(p.generations), now);
    }
  }

  lemma BusyMoves(p: Pool, busy: bool, now: int)
    ensures Moves(p, BusyKnown(p, busy, now))
    ensures if p.inFlight.Some? then BusyKnown(p, busy, now).inFlight.Some? else BusyKnown(p, busy, now) == p
  {
    hide Decide;
    if p.inFlight.Some? && p.inFlight.value.ProbingBusy? {
      DecideMoves(p, p.inFlight.value.request, p.inFlight.value.fingerprint, p.inFlight.value.primary, now);
    }
  }

  lemma SettleMoves(p: Pool)
    ensures Moves(p, Settle(p))
  {
    hide RequestRollover;
    if p.pending.Some? {
      RequestMoves(p.(inFlight := None, pending := None), p.pending.value);
    }
  }

  lemma MovingMoves(p: Pool, e: Event)
    requires Moving(e)
    ensures Moves(p, Next(p, e))
  {
    hide Prepared, BusyKnown, RequestRollover, Settle, Moves;
    match e
    case ERequest(request) => RequestMoves(p, request);
    case EPrepared(fingerprint, now) => PreparedMoves(p, fingerprint, now);
    case EBusyKnown(busy, now) => BusyMoves(p, busy, now);
    case ESettle => SettleMoves(p);
    case _ => StepMoves(p, e);
  }

  lemma StepMoves(p: Pool, e: Event)
    requires e.EDrainResumed? || e.EStandbyClosed? || e.ERegistered? || e.ESessionsListed?
    ensures Moves(p, Next(p, e))
  {
  }

  lemma ListRolls(p: Pool, ok: bool, healthy: bool)
    ensures Rolls(p, Reloaded(p, ok)) && Rolls(p, HealthKnown(p, healthy))
  {
    hide Without, Fingerprinted;
  }

  lemma SpawnRolls(p: Pool, handle: Option<Endpoint>)
    ensures Rolls(p, Spawned(p, handle))
  {
  }

  lemma RunRolls(p: Pool, e: Event)
    requires OfRun(e)
    ensures Rolls(p, Next(p, e))
  {
    if Moving(e) {
      MovingMoves(p, e);
      hide Next;
    } else {
      hide Reloaded, Spawned, HealthKnown, Rolls;
      match e
      case EReloaded(ok) => ListRolls(p, ok, true);
      case EHealthKnown(healthy) => ListRolls(p, true, healthy);
      case ESpawned(handle) => SpawnRolls(p, handle);
    }
  }

  lemma MonitorTouches(p: Pool, id: Id, now: int)
    ensures var q := StartDrainMonitor(p, id, now);
      && q.generations ==
           Assign(p.generations, id, StatusOf(p.generations, id), Some(now + p.settings.drainTimeoutMs))
      && q == p.(generations := q.generations, polls := q.polls)
      && (q.polls == p.polls || (StatusOf(q.generations, id) == Draining && q.polls == p.polls + multiset{id}))
  {
    hide Assign, StatusOf;
  }

  lemma FlippedTouches(p: Pool, now: int)
    ensures var q := Flipped(p, now);
      q == p.(generations := q.generations, config := q.config, inFlight := q.inFlight, polls := q.polls,
              sessionOwnership := q.sessionOwnership, pinnedRequests := q.pinnedRequests, activeSessions := q.activeSessions)
      && (p.inFlight.Some? ==> q.inFlight.Some?)
  {
    hide Assign, PointedAt, AddOwner, StartDrainMonitor;
    if FlipReady(p) && p.inFlight.value.primary.Some? {
      var run := p.inFlight.value;
      MonitorTouches(Flip(p, run.standby, run.primary, run.sessions, run.requests), run.primary.value, now);
    }
  }

  lemma ReplacementTouches(p: Pool)
    ensures var q := ReplacementRegistered(p);
      q == p.(generations := q.generations, config := q.config, recovery := q.recovery)
  {
    hide Assign, PointedAt;
  }

  lemma RouteTouchesOwners(p: Pool, path: Path)
    ensures var q := RouteRequest(p, path).0; q == p.(sessionOwnership := q.sessionOwnership)
  {
    hide Find, GenerationFor, Active;
  }

  lemma ForwardTouchesPins(p: Pool, id: Id, payload: Payload)
    ensures var q := ForwardEvent(p, id, payload).0; q == p.(pinnedRequests := q.pinnedRequests)
  {
    hide AddOwner, OwnsSession, OwnsRequest, ForeignSession, ForeignRequest, GenerationFor;
  }

  lemma UpdateTouches(p: Pool, id: Id, sessions: set<string>)
    ensures var q := UpdateActiveSessions(p, id, sessions);
      q == p.(activeSessions := q.activeSessions, sessionOwnership := q.sessionOwnership)
  {
  }

  lemma RetireTouches(p: Pool, id: Id, cause: Cause)
    ensures var q := RetireStarted(p, id, cause);
      q == p.(generations := q.generations, activeSessions := q.activeSessions, closing := q.closing,
              sessionOwnership := q.sessionOwnership, pinnedRequests := q.pinnedRequests)
  {
    hide StatusOf, Assign, DropOwner;
  }

  lemma PollTouches(p: Pool, id: Id, remaining: set<string>, now: int)
    ensures var q := PollReturned(p, id, remaining, now);
      q == p.(generations := q.generations, activeSessions := q.activeSessions, closing := q.closing, polls := q.polls,
              aborts := q.aborts, sessionOwnership := q.sessionOwnership, pinnedRequests := q.pinnedRequests)
  {
    hide UpdateActiveSessions, RetireStarted, PastDeadline;
    if id in p.polls {
      var q := p.(polls := p.polls - multiset{id});
      UpdateTouches(q, id, remaining);
      RetireTouches(UpdateActiveSessions(q, id, remaining), id, Idle);
    }
  }
}
