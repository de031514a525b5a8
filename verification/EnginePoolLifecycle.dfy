/** The life of a generation: it starts, serves, drains and dies, and while it is served
    somebody is primary. */
module EnginePoolLifecycle {
  import opened Wrappers
  import opened EnginePoolFrames
  import opened EnginePoolModel
  import opened EnginePoolInvariants

  /** The config points at the primary. */
  ghost predicate Follows(p: Pool) {
    ConfigFollows(TableOf(p.generations), p.config)
  }

  /** One entry of the list across an event that is not a flip: it stays as it is, dies,
      or is a new standby. */
  ghost predicate Ages(t: Table, t': Table, id: Id, nextId: Id)
    requires id in t'
  {
    || (id in t && t'[id].endpoint == t[id].endpoint &&
          (t'[id].status == Dead || (t'[id].status == t[id].status && t'[id].drainDeadline == t[id].drainDeadline)))
    || (id !in t && id == nextId && t'[id].status == Starting)
  }

  /** What an event that is not a flip may do to the list. */
  ghost predicate Advances(p: Pool, q: Pool, removes: bool) {
    var t, t' := TableOf(p.generations), TableOf(q.generations);
    && q.config == p.config && q.nextId >= p.nextId
    && (forall id <- t' :: Ages(t, t', id, p.nextId))
    && (!removes ==> forall id <- t | t[id].status == Primary :: Has(t', id, Primary))
    && (forall id <- t | t[id].status == Draining :: Has(t', id, Draining) || id in q.closing)
  }

  predicate Flips(e: Event) {
    e.EFlipped? || e.EReplacementRegistered?
  }

  /** Events that take the primary out of service without a successor. */
  predicate Removes(e: Event) {
    e.EOldClosed? || e.EDisposeNext? || e.EDisposeEnded?
  }

  /** Events that touch neither the generation list nor the config. */
  predicate Untouching(e: Event) {
    !Flips(e) && !Removes(e) && !e.EReloaded? && !e.ESpawned? && !e.EHealthKnown? && !e.EPollReturned? &&
    !e.EAbortsDone? && !e.EClosed? && !e.EReplacementChecked?
  }

  ghost predicate SameEngines(p: Pool, q: Pool) {
    q.generations == p.generations && q.config == p.config && q.nextId == p.nextId
  }

  lemma Untouched(p: Pool, e: Event)
    requires Untouching(e)
    ensures SameEngines(p, Next(p, e))
  {
    if Moving(e) {
      MovingMoves(p, e);
      hide Next;
    } else {
      hide AddOwner, Ids, RouteRequest, ForwardEvent, PrimaryId, StatusOf;
      match e
      case ERoute(path) => RouteTouchesOwners(p, path);
      case EForward(id, payload) => ForwardTouchesPins(p, id, payload);
      case _ =>
    }
  }

  lemma RetiredAdvances(p: Pool, id: Id, cause: Cause)
    requires DistinctIds(p.generations)
    requires StatusOf(p.generations, id) in {Draining, Dead}
    ensures Advances(p, RetireStarted(p, id, cause), false)
  {
    TableFinds(p.generations, id);
    TableAssign(p.generations, id, Dead, None);
  }

  lemma ReloadedAdvances(p: Pool, ok: bool)
    ensures Advances(p, Reloaded(p, ok), false)
  {
    hide Fingerprinted, TableOf, Advances, Ages, SameEngines;
    if ok && p.inFlight.Some? && p.inFlight.value.Reloading? && p.inFlight.value.primary.Some? {
      var id, fingerprint := p.inFlight.value.primary.value, p.inFlight.value.fingerprint;
      TableFingerprinted(p.generations, id, fingerprint);
      FingerprintAges(TableOf(p.generations), TableOf(Fingerprinted(p.generations, id, fingerprint)), id, fingerprint, p.nextId);
      StatusAdvances(p, Reloaded(p, ok));
    } else {
      SameEnginesAdvance(p, Reloaded(p, ok));
    }
  }

  lemma StatusAdvances(p: Pool, q: Pool)
    requires q.config == p.config && q.nextId >= p.nextId
    requires forall i <- TableOf(q.generations) :: Ages(TableOf(p.generations), TableOf(q.generations), i, p.nextId)
    requires forall i <- TableOf(p.generations) :: Has(TableOf(q.generations), i, TableOf(p.generations)[i].status)
    ensures Advances(p, q, false)
  {
    hide TableOf, Ages;
    var t, t' := TableOf(p.generations), TableOf(q.generations);
    assert forall id <- t' :: Ages(t, t', id, p.nextId);
    forall id <- t ensures Has(t', id, t[id].status) {
    }
  }

  lemma SameEnginesAdvance(p: Pool, q: Pool)
    requires q.generations == p.generations && q.config == p.config && q.nextId == p.nextId
    ensures Advances(p, q, false)
  {
    SameAdvances(p, q, q, false);
  }

  lemma FingerprintAges(t: Table, t': Table, id: Id, fingerprint: string, nextId: Id)
    requires t' == if id in t then t[id := t[id].(fingerprint := fingerprint)] else t
    ensures forall i <- t' :: Ages(t, t', i, nextId)
    ensures forall i <- t :: Has(t', i, t[i].status)
  {
  }

  lemma AppendedAdvances(p: Pool, g: Generation)
    requires Inv(p) && g.id == p.nextId && g.status == Starting
    ensures Advances(p, p.(generations := p.generations + [g], nextId := p.nextId + 1), false)
  {
    IdsBelow(p);
    hide Inv, TableOf;
    TableAppend(p.generations, g);
    hide Ages;
    AppendedAges(TableOf(p.generations), TableOf(p.generations + [g]), g, p.nextId);
  }

  lemma IdsBelow(p: Pool)
    requires Inv(p)
    ensures DistinctIds(p.generations)
    ensures forall id <- TableOf(p.generations) :: id < p.nextId
  {
  }

  lemma AppendedAges(t: Table, t': Table, g: Generation, nextId: Id)
    requires t' == t[g.id := g] && g.id !in t && g.id == nextId && g.status == Starting
    ensures forall id <- t' :: Ages(t, t', id, nextId)
  {
  }

  lemma DroppedAdvances(p: Pool, id: Id, removes: bool)
    requires DistinctIds(p.generations)
    requires !removes && id in TableOf(p.generations) ==> TableOf(p.generations)[id].status != Primary
    requires id in TableOf(p.generations) ==> TableOf(p.generations)[id].status != Draining
    ensures Advances(p, p.(generations := Without(p.generations, id)), removes)
  {
    TableWithout(p.generations, id);
  }

  lemma SameAdvances(p: Pool, q: Pool, r: Pool, removes: bool)
    requires SameEngines(p, q)
    ensures Advances(p, q, removes)
    ensures Advances(q, r, removes) ==> Advances(p, r, removes)
  {
  }

  lemma PolledAdvances(p: Pool, id: Id, remaining: set<string>, now: int)
    requires Inv(p) && Fresh(p, EPollReturned(id, remaining, now))
    ensures Advances(p, PollReturned(p, id, remaining, now), false)
  {
    hide Inv, Advances, PastDeadline, StatusOf;
    if id in p.polls {
      var q := UpdateActiveSessions(p.(polls := p.polls - multiset{id}), id, remaining);
      assert DistinctIds(p.generations) by { InvDistinct(p); }
      hide RetireStarted, DistinctIds;
      if remaining == {} { RetiredAdvances(q, id, Idle); }
      SameAdvances(p, q, PollReturned(p, id, remaining, now), false);
      SameAdvances(p, q.(aborts := q.aborts + multiset{id}), q, false);
    } else {
      SameAdvances(p, p, p, false);
    }
  }

  lemma InvDistinct(p: Pool)
    requires Inv(p)
    ensures DistinctIds(p.generations)
  {
  }

  lemma AbortedAdvances(p: Pool, id: Id)
    requires Inv(p)
    ensures Advances(p, AbortsDone(p, id), false)
  {
    TableFinds(p.generations, id);
    if id in p.aborts { RetiredAdvances(p.(aborts := p.aborts - multiset{id}), id, Forced); }
  }

  lemma RetiredAnyAdvances(p: Pool, id: Id, cause: Cause)
    requires DistinctIds(p.generations)
    ensures Advances(p, RetireStarted(p, id, cause), true)
  {
    TableFinds(p.generations, id);
    TableAssign(p.generations, id, Dead, None);
  }

  lemma DisposeNextAdvances(p: Pool)
    requires DistinctIds(p.generations)
    ensures Advances(p, DisposeNext(p), true)
  {
    hide Advances, RetireStarted, DistinctIds;
    if p.disposal != [] {
      var q := p.(disposal := p.disposal[1..]);
      RetiredAnyAdvances(q, p.disposal[0], Shutdown);
      SameAdvances(p, q, DisposeNext(p), true);
    } else {
      SameAdvances(p, p, p, true);
    }
  }

  lemma EmptiedAdvances(p: Pool)
    requires Inv(p)
    ensures Advances(p, DisposeEnded(p), true)
  {
    if p.disposed && p.disposal == [] {
      assert TableOf([]) == map[];
    }
  }

  lemma DisposedAdvances(p: Pool)
    requires Inv(p)
    ensures Advances(p, DisposeNext(p), true) && Advances(p, DisposeEnded(p), true)
  {
    InvDistinct(p);
    hide Inv, Advances, DisposeNext, DisposeEnded, DistinctIds;
    DisposeNextAdvances(p);
    EmptiedAdvances(p);
  }

  lemma SpawnedAdvances(p: Pool, handle: Option<Endpoint>)
    requires Inv(p)
    ensures Advances(p, Spawned(p, handle), false)
  {
    if handle.Some? && p.inFlight.Some? && p.inFlight.value.Spawning? {
      AppendedAdvances(p, Generation(p.nextId, handle.value, Starting, p.inFlight.value.fingerprint, None));
    } else {
      SameAdvances(p, Spawned(p, handle), p, false);
    }
  }

  lemma CheckedAdvances(p: Pool, healthy: bool, fingerprint: string)
    requires Inv(p)
    ensures Advances(p, ReplacementChecked(p, healthy, fingerprint), false)
  {
    if p.recovery.Some? && p.recovery.value.CheckingReplacement? && healthy {
      AppendedAdvances(p, Generation(p.nextId, p.recovery.value.endpoint, Starting, fingerprint, None));
    } else {
      SameAdvances(p, ReplacementChecked(p, healthy, fingerprint), p, false);
    }
  }

  lemma HealthAdvances(p: Pool, healthy: bool)
    requires Inv(p)
    ensures Advances(p, HealthKnown(p, healthy), false)
  {
    if p.inFlight.Some? && p.inFlight.value.CheckingHealth? && !healthy {
      DroppedAdvances(p, p.inFlight.value.standby.id, false);
    } else {
      SameAdvances(p, HealthKnown(p, healthy), p, false);
    }
  }

  lemma ClosedAdvances(p: Pool, id: Id)
    requires Inv(p)
    ensures Advances(p, Closed(p, id), false)
  {
    if id in p.closing {
      DroppedAdvances(p, id, false);
    } else {
      SameAdvances(p, p, p, false);
    }
  }

  lemma OldClosedAdvances(p: Pool, ok: bool)
    requires Inv(p)
    ensures Advances(p, OldClosed(p, ok), true)
  {
    if p.recovery.Some? && p.recovery.value.ClosingOld? && ok {
      DroppedAdvances(p, p.recovery.value.previous, true);
    } else {
      SameAdvances(p, OldClosed(p, ok), p, true);
    }
  }

  lemma ListAdvances(p: Pool, e: Event)
    requires Inv(p) && Fresh(p, e) && !Flips(e)
    ensures Advances(p, Next(p, e), Removes(e))
  {
    hide Inv, Advances, SameEngines, Next, Fresh;
    if Untouching(e) {
      Untouched(p, e);
      SameAdvances(p, Next(p, e), p, false);
      SameAdvances(p, p, p, false);
    } else {
      TouchingAdvances(p, e);
    }
  }

  lemma TouchingAdvances(p: Pool, e: Event)
    requires Inv(p) && Fresh(p, e) && !Flips(e) && !Untouching(e)
    ensures Advances(p, Next(p, e), Removes(e))
  {
    hide Inv, Advances, Next;
    if e.EReloaded? || e.ESpawned? || e.EHealthKnown? || e.EPollReturned? || e.EAbortsDone? {
      EngineAdvances(p, e);
    } else {
      RemovalAdvances(p, e);
    }
  }

  lemma EngineAdvances(p: Pool, e: Event)
    requires Inv(p) && Fresh(p, e)
    requires e.EReloaded? || e.ESpawned? || e.EHealthKnown? || e.EPollReturned? || e.EAbortsDone?
    ensures Advances(p, Next(p, e), Removes(e))
  {
    hide Inv, Advances, Reloaded, Spawned, HealthKnown, PollReturned, AbortsDone, Fresh;
    match e
    case EReloaded(ok) => ReloadedAdvances(p, ok);
    case ESpawned(handle) => SpawnedAdvances(p, handle);
    case EHealthKnown(healthy) => HealthAdvances(p, healthy);
    case EPollReturned(id, remaining, now) => PolledAdvances(p, id, remaining, now);
    case EAbortsDone(id) => AbortedAdvances(p, id);
  }

  lemma RemovalAdvances(p: Pool, e: Event)
    requires Inv(p) && (Removes(e) || e.EClosed? || e.EReplacementChecked?)
    ensures Advances(p, Next(p, e), Removes(e))
  {
    hide Inv, Advances, Closed, OldClosed, ReplacementChecked, DisposeNext, DisposeEnded;
    match e
    case EClosed(id) => ClosedAdvances(p, id);
    case EOldClosed(ok) => OldClosedAdvances(p, ok);
    case EReplacementChecked(healthy, fingerprint) => CheckedAdvances(p, healthy, fingerprint);
    case EDisposeNext => DisposedAdvances(p);
    case EDisposeEnded => DisposedAdvances(p);
  }

  /** Traffic is served: some engine is primary and the config points at it. */
  ghost predicate Serves(p: Pool) {
    Follows(p) && !NoneIs(TableOf(p.generations), Primary)
  }

  lemma FlippedServes(p: Pool, now: int)
    requires Inv(p) && FlipReady(p)
    ensures Serves(Flipped(p, now))
  {
    hide Flipped, FlippedList, PointedAt, AddOwner, FlippedTable;
    var t, run, deadline := TableOf(p.generations), p.inFlight.value, now + p.settings.drainTimeoutMs;
    FlippedOutcome(p, now);
    assert AtMostOne(t, Primary) && Standbys(t, Some(run.standby)) && IsPrimary(t, run.primary);
    hide Roles, Owners, Drained, ActiveOwned, Disposal, Ticks, WaiterBacked, AtMostOne, Standbys, IsPrimary,
         Continuations;
    FlippedListTable(p.generations, run.standby.id, run.primary, deadline);
    FlipPromotes(t, run.standby, run.primary, Some(deadline), p.config);
  }

  lemma ReplacementServes(p: Pool)
    requires Inv(p) && Serial(p) && p.recovery.Some? && p.recovery.value.RegisteringReplacement?
    ensures Serves(ReplacementRegistered(p))
  {
    var t, next := TableOf(p.generations), p.recovery.value.replacement;
    assert AtMostOne(t, Primary) && Standbys(t, Some(next)) && IsPrimary(t, None);
    hide Roles, Owners, Drained, ActiveOwned, Disposal, Ticks, WaiterBacked, AtMostOne, PointedAt, Assign,
         FlippedTable, Standbys, IsPrimary, Continuations;
    PromotedList(p.generations, next.id);
    FlipPromotes(t, next, None, None, p.config);
  }

  lemma AdvancesServe(p: Pool, q: Pool, removes: bool)
    requires Advances(p, q, removes)
    ensures Follows(p) ==> Follows(q)
    ensures !NoneIs(TableOf(p.generations), Primary) && !removes ==> !NoneIs(TableOf(q.generations), Primary)
  {
    hide TableOf;
  }

  /** A flip puts an engine in service; nothing but a removal takes service away. */
  lemma StepServes(p: Pool, e: Event)
    requires Inv(p) && Serial(p) && Fresh(p, e)
    ensures Follows(p) ==> Follows(Next(p, e))
    ensures !NoneIs(TableOf(p.generations), Primary) && !Removes(e) ==> !NoneIs(TableOf(Next(p, e).generations), Primary)
  {
    hide Inv, Serial, Fresh, FlippedList, Advances, TableOf, Flipped, ReplacementRegistered, NoneIs, Follows;
    if !Flips(e) {
      ListAdvances(p, e);
      hide Next;
      AdvancesServe(p, Next(p, e), Removes(e));
    } else if e.EFlipped? && FlipReady(p) {
      FlippedServes(p, e.now);
    } else if e.EReplacementRegistered? && p.recovery.Some? && p.recovery.value.RegisteringReplacement? {
      ReplacementServes(p);
    } else {
      NoFlip(p, e);
    }
  }

  lemma NoFlip(p: Pool, e: Event)
    requires Flips(e)
    requires !(e.EFlipped? && FlipReady(p))
    requires !(e.EReplacementRegistered? && p.recovery.Some? && p.recovery.value.RegisteringReplacement?)
    ensures Next(p, e) == p
  {
    hide Flip, StartDrainMonitor;
  }

  /** One entry of the list across any event: the only other moves are promotion of the
      standby and demotion of the primary. */
  ghost predicate Lives(t: Table, t': Table, id: Id, nextId: Id)
    requires id in t'
  {
    || Ages(t, t', id, nextId)
    || (id in t && t[id].status == Starting && t'[id].status == Primary)
    || (id in t && t[id].status == Primary && t'[id].status == Draining)
  }

  lemma FlippedLives(t: Table, next: Id, previous: Option<Id>, deadline: Option<int>, nextId: Id)
    requires Has(t, next, Starting) && IsPrimary(t, previous)
    ensures forall id <- FlippedTable(t, next, previous, deadline) ::
      Lives(t, FlippedTable(t, next, previous, deadline), id, nextId)
    ensures forall id <- t | t[id].status == Draining :: Has(FlippedTable(t, next, previous, deadline), id, Draining)
  {
  }

  ghost predicate AllLive(p: Pool, q: Pool) {
    && q.nextId >= p.nextId
    && (forall id <- TableOf(q.generations) :: Lives(TableOf(p.generations), TableOf(q.generations), id, p.nextId))
    && (forall id <- TableOf(p.generations) | TableOf(p.generations)[id].status == Draining ::
          Has(TableOf(q.generations), id, Draining) || id in q.closing)
  }

  lemma FlippedAllLive(p: Pool, now: int)
    requires Inv(p) && FlipReady(p)
    ensures AllLive(p, Flipped(p, now))
  {
    hide Flipped, FlippedList, PointedAt, AddOwner, FlippedTable;
    var t, run, deadline := TableOf(p.generations), p.inFlight.value, now + p.settings.drainTimeoutMs;
    FlippedOutcome(p, now);
    FlippedListTable(p.generations, run.standby.id, run.primary, deadline);
    FlippedLives(t, run.standby.id, run.primary, Some(deadline), p.nextId);
    hide Lives, Inv, TableOf;
  }

  lemma ReplacementAllLive(p: Pool)
    requires Inv(p) && Serial(p) && p.recovery.Some? && p.recovery.value.RegisteringReplacement?
    ensures AllLive(p, ReplacementRegistered(p))
  {
    var next := p.recovery.value.replacement.id;
    PromotedList(p.generations, next);
    FlippedLives(TableOf(p.generations), next, None, None, p.nextId);
    hide FlippedTable, Lives, Inv, TableOf, Assign;
  }

  /** A generation starts, serves, drains and dies, in that order. */
  lemma StepLives(p: Pool, e: Event)
    requires Inv(p) && Serial(p) && Fresh(p, e)
    ensures AllLive(p, Next(p, e))
  {
    hide Inv, Serial, Fresh, Advances, AllLive, Flipped, ReplacementRegistered;
    if !Flips(e) {
      ListAdvances(p, e);
      hide Next;
      AdvancesLive(p, Next(p, e), Removes(e));
    } else if e.EFlipped? && FlipReady(p) {
      FlippedAllLive(p, e.now);
    } else if e.EReplacementRegistered? && p.recovery.Some? && p.recovery.value.RegisteringReplacement? {
      ReplacementAllLive(p);
    } else {
      NoFlip(p, e);
      SameAdvances(p, p, p, false);
      AdvancesLive(p, p, false);
    }
  }

  lemma AdvancesLive(p: Pool, q: Pool, removes: bool)
    requires Advances(p, q, removes)
    ensures AllLive(p, q)
  {
    hide TableOf, Ages;
  }
}
