/** What the engine pool promises whatever overlaps: runs in which rollovers, recoveries and
    disposals interleave freely, and polls come back whenever they like. */
module EnginePoolOverlaps {
  import opened Wrappers
  import opened EnginePoolFrames
  import opened EnginePoolModel
  import opened EnginePoolInvariants
  import opened EnginePoolLifecycle
  import opened EnginePoolTheorems
  import opened EnginePoolDrains

  // ----------------------------------------------------- the list, step by step

  ghost function RetiredTable(t: Table, id: Id): Table {
    if id in t && t[id].status != Dead then Updated(t, id, Dead, None) else t
  }

  /** The generations by id after an event. */
  ghost function TableAfter(p: Pool, e: Event): Table {
    var t := TableOf(p.generations);
    match e
    case EReloaded(ok) =>
      if ok && p.inFlight.Some? && p.inFlight.value.Reloading? && p.inFlight.value.primary.Some? &&
         p.inFlight.value.primary.value in t
      then t[p.inFlight.value.primary.value :=
             t[p.inFlight.value.primary.value].(fingerprint := p.inFlight.value.fingerprint)]
      else t
    case ESpawned(handle) =>
      if handle.Some? && AtSpawn(p)
      then t[p.nextId := Generation(p.nextId, handle.value, Starting, p.inFlight.value.fingerprint, None)] else t
    case EHealthKnown(healthy) =>
      if !healthy && p.inFlight.Some? && p.inFlight.value.CheckingHealth?
      then t - {p.inFlight.value.standby.id} else t
    case EFlipped(now) =>
      if FlipReady(p)
      then FlippedTable(t, p.inFlight.value.standby.id, p.inFlight.value.primary, Some(now + p.settings.drainTimeoutMs))
      else t
    case EPollReturned(id, remaining, _) => if id in p.polls && remaining == {} then RetiredTable(t, id) else t
    case EAbortsDone(id) => if id in p.aborts then RetiredTable(t, id) else t
    case EClosed(id) => if id in p.closing then t - {id} else t
    case EOldClosed(ok) =>
      if ok && p.recovery.Some? && p.recovery.value.ClosingOld? then t - {p.recovery.value.previous} else t
    case EReplacementChecked(healthy, fingerprint) =>
      if healthy && p.recovery.Some? && p.recovery.value.CheckingReplacement?
      then t[p.nextId := Generation(p.nextId, p.recovery.value.endpoint, Starting, fingerprint, None)] else t
    case EReplacementRegistered => if Replacing(p) then FlippedTable(t, p.recovery.value.replacement.id, None, None) else t
    case EDisposeNext => if p.disposal != [] then RetiredTable(t, p.disposal[0]) else t
    case EDisposeEnded => if p.disposed && p.disposal == [] then map[] else t
    case _ => t
  }

  predicate Replacing(p: Pool) {
    p.recovery.Some? && p.recovery.value.RegisteringReplacement?
  }

  ghost predicate Numbered(p: Pool) {
    DistinctIds(p.generations) && forall id <- TableOf(p.generations) :: id < p.nextId
  }

  ghost predicate Becomes(p: Pool, q: Pool, t: Table) {
    DistinctIds(q.generations) && TableOf(q.generations) == t
  }

  lemma RetireBecomes(p: Pool, id: Id, cause: Cause)
    requires DistinctIds(p.generations)
    ensures Becomes(p, RetireStarted(p, id, cause), RetiredTable(TableOf(p.generations), id))
  {
    hide DistinctIds, TableOf, Assign, Updated;
    TableFinds(p.generations, id);
    if StatusOf(p.generations, id) != Dead {
      TableAssign(p.generations, id, Dead, None);
      AssignDistinct(p.generations, id, Dead, None);
    }
  }

  lemma PollBecomes(p: Pool, id: Id, remaining: set<string>, now: int)
    requires DistinctIds(p.generations)
    ensures Becomes(p, PollReturned(p, id, remaining, now), TableAfter(p, EPollReturned(id, remaining, now)))
  {
    hide UpdateActiveSessions, RetireStarted, PastDeadline, DistinctIds, TableOf, RetiredTable;
    if id in p.polls {
      var q := p.(polls := p.polls - multiset{id});
      UpdateTouches(q, id, remaining);
      if remaining == {} { RetireBecomes(UpdateActiveSessions(q, id, remaining), id, Idle); }
    }
  }

  lemma AppendBecomes(p: Pool, g: Generation)
    requires Numbered(p) && g.id == p.nextId
    ensures DistinctIds(p.generations + [g]) && TableOf(p.generations + [g]) == TableOf(p.generations)[g.id := g]
  {
    assert g.id !in TableOf(p.generations);
    hide DistinctIds;
    TableAppend(p.generations, g);
    AppendDistinct(p.generations, g);
  }

  lemma ReloadBecomes(p: Pool, ok: bool)
    requires DistinctIds(p.generations)
    ensures Becomes(p, Reloaded(p, ok), TableAfter(p, EReloaded(ok)))
  {
    hide DistinctIds, TableOf, Fingerprinted;
    if ok && p.inFlight.Some? && p.inFlight.value.Reloading? && p.inFlight.value.primary.Some? {
      TableFingerprinted(p.generations, p.inFlight.value.primary.value, p.inFlight.value.fingerprint);
    }
  }

  lemma SpawnBecomes(p: Pool, handle: Option<Endpoint>)
    requires Numbered(p)
    ensures Becomes(p, Spawned(p, handle), TableAfter(p, ESpawned(handle)))
  {
    if handle.Some? && AtSpawn(p) {
      AppendBecomes(p, Generation(p.nextId, handle.value, Starting, p.inFlight.value.fingerprint, None));
    }
    hide TableOf, DistinctIds;
  }

  lemma HealthBecomes(p: Pool, healthy: bool)
    requires DistinctIds(p.generations)
    ensures Becomes(p, HealthKnown(p, healthy), TableAfter(p, EHealthKnown(healthy)))
  {
    hide TableOf, DistinctIds, Without;
    if p.inFlight.Some? && p.inFlight.value.CheckingHealth? {
      TableWithout(p.generations, p.inFlight.value.standby.id);
    }
  }

  /** The run's own segments. */
  lemma RunBecomes(p: Pool, e: Event)
    requires Numbered(p) && OfRun(e)
    ensures Becomes(p, Next(p, e), TableAfter(p, e))
  {
    hide TableOf, Reloaded, Spawned, HealthKnown, DistinctIds, Becomes;
    if Moving(e) {
      MovingMoves(p, e);
      hide Next;
      SameBecomes(p, Next(p, e));
    } else {
      match e
      case EReloaded(ok) => ReloadBecomes(p, ok);
      case ESpawned(handle) => SpawnBecomes(p, handle);
      case EHealthKnown(healthy) => HealthBecomes(p, healthy);
    }
  }

  lemma SameBecomes(p: Pool, q: Pool)
    requires Numbered(p) && q.generations == p.generations
    ensures Becomes(p, q, TableOf(p.generations))
  {
    hide TableOf, DistinctIds;
  }

  lemma FlipBecomes(p: Pool, e: Event)
    requires DistinctIds(p.generations) && Flips(e)
    ensures Becomes(p, Next(p, e), TableAfter(p, e))
  {
    hide TableOf, DistinctIds, FlippedTable, FlippedList, Flipped, Assign, PointedAt;
    if e.EFlipped? {
      if FlipReady(p) {
        var run := p.inFlight.value;
        FlippedOutcome(p, e.now);
        FlippedListTable(p.generations, run.standby.id, run.primary, e.now + p.settings.drainTimeoutMs);
      } else {
        FlipIdle(p, e.now);
      }
    } else if Replacing(p) {
      PromotedList(p.generations, p.recovery.value.replacement.id);
    }
  }

  lemma ClosedBecomes(p: Pool, id: Id)
    requires DistinctIds(p.generations)
    ensures Becomes(p, Closed(p, id), TableAfter(p, EClosed(id)))
  {
    hide TableOf, DistinctIds, Without, Merge;
    TableWithout(p.generations, id);
  }

  /** Retirements, recoveries and disposals. */
  lemma RemovalBecomes(p: Pool, e: Event)
    requires Numbered(p) && !Flips(e) && !OfRun(e) && !Untouching(e)
    ensures Becomes(p, Next(p, e), TableAfter(p, e))
  {
    hide TableOf, DistinctIds, Without, RetireStarted, PollReturned, Closed, RetiredTable, Merge;
    assert DistinctIds(p.generations);
    match e
    case EPollReturned(id, remaining, now) => PollBecomes(p, id, remaining, now);
    case EAbortsDone(id) => RetireBecomes(p.(aborts := p.aborts - multiset{id}), id, Forced);
    case EClosed(id) => ClosedBecomes(p, id);
    case EOldClosed(ok) =>
      if p.recovery.Some? && p.recovery.value.ClosingOld? { TableWithout(p.generations, p.recovery.value.previous); }
    case EReplacementChecked(healthy, fingerprint) =>
      if p.recovery.Some? && p.recovery.value.CheckingReplacement? {
        AppendBecomes(p, Generation(p.nextId, p.recovery.value.endpoint, Starting, fingerprint, None));
      }
    case EDisposeNext =>
      if p.disposal != [] { RetireBecomes(p.(disposal := p.disposal[1..]), p.disposal[0], Shutdown); }
    case EDisposeEnded => EmptyBecomes();
  }

  lemma EmptyBecomes()
    ensures DistinctIds([]) && TableOf([]) == map[]
  {
  }

  /** Whatever the event, the list after it is the one `TableAfter` gives. */
  lemma StepBecomes(p: Pool, e: Event)
    requires Numbered(p)
    ensures Becomes(p, Next(p, e), TableAfter(p, e))
  {
    hide Next, TableOf, TableAfter;
    if OfRun(e) {
      RunBecomes(p, e);
    } else if Flips(e) {
      FlipBecomes(p, e);
    } else if Untouching(e) {
      Untouched(p, e);
      UntouchedTable(p, e);
    } else {
      RemovalBecomes(p, e);
    }
  }

  lemma UntouchedTable(p: Pool, e: Event)
    requires Untouching(e)
    ensures TableAfter(p, e) == TableOf(p.generations)
  {
    hide TableOf;
  }

  // ------------------------------------------------- what any run keeps

  /** The standby of the rollover in flight, and of the recovery in flight. */
  ghost function RunStandby(p: Pool): Option<Handle> {
    Standby(p.inFlight, None)
  }

  ghost function RecoveryStandby(p: Pool): Option<Handle> {
    Standby(None, p.recovery)
  }

  /** The primary the rollover in flight captured, if there was one. */
  ghost function CapturedBy(run: Option<Run>): Option<Id> {
    if run.Some? && Captured(run.value).Some? then Captured(run.value).value else None
  }

  ghost function CapturedId(p: Pool): Option<Id> {
    CapturedBy(p.inFlight)
  }

  ghost predicate IsCommitted(run: Option<Run>) {
    run.Some? && Committed(run.value)
  }

  ghost predicate Commits(p: Pool) {
    IsCommitted(p.inFlight)
  }

  /** A standby waits to be promoted, or was retired by a disposal; no drain tick knows it. */
  ghost predicate Stands(t: Table, p: Pool, h: Option<Handle>) {
    h.Some? ==>
      && h.value.id < p.nextId && h.value.id !in p.polls && h.value.id !in p.aborts
      && (h.value.id in t ==> t[h.value.id].status in {Starting, Dead} && t[h.value.id].endpoint == h.value.endpoint)
  }

  ghost predicate Apart(h: Option<Handle>, id: Option<Id>) {
    h.Some? && id.Some? ==> h.value.id != id.value
  }

  function IdOf(h: Option<Handle>): Option<Id> {
    if h.Some? then Some(h.value.id) else None
  }

  ghost predicate Sound(t: Table, p: Pool) {
    && (forall id <- t :: id < p.nextId)
    && AtMostOne(t, Draining)
    && Ticks(t, p.polls, p.aborts, p.nextId)
    && (Commits(p) ==> NoneIs(t, Draining))
    && Stands(t, p, RunStandby(p)) && Stands(t, p, RecoveryStandby(p))
    && Apart(RunStandby(p), IdOf(RecoveryStandby(p)))
    && Apart(RunStandby(p), CapturedId(p)) && Apart(RecoveryStandby(p), CapturedId(p))
    && (CapturedId(p).Some? ==> CapturedId(p).value < p.nextId)
    && (forall id <- t | t[id].status == Starting ::
          var h := Some(Handle(id, t[id].endpoint)); RunStandby(p) == h || RecoveryStandby(p) == h)
  }

  /** Entries of `t'` are entries of `t`, as they were or dead. */
  ghost predicate Below(t': Table, t: Table) {
    forall id <- t' ::
      id in t && t'[id].endpoint == t[id].endpoint && (t'[id].status == t[id].status || t'[id].status == Dead)
  }

  /** What an event that neither promotes nor adds an engine may do to the rest. */
  ghost predicate Continues(t: Table, t': Table, p: Pool, q: Pool) {
    && q.nextId == p.nextId
    && (forall id | id in q.polls || id in q.aborts :: id in p.polls || id in p.aborts || Has(t, id, Draining))
    && (RunStandby(q) == RunStandby(p) || (RunStandby(q).None? && RunStandby(p).value.id !in t'))
    && RecoveryStandby(q) == RecoveryStandby(p)
    && (CapturedId(q).None? || CapturedId(q) == CapturedId(p) || Has(t, CapturedId(q).value, Primary))
    && (Commits(q) ==> Commits(p) || NoneIs(t, Draining))
  }

  lemma Shrinks(t: Table, t': Table, p: Pool, q: Pool)
    requires Sound(t, p) && Below(t', t) && Continues(t, t', p, q)
    ensures Sound(t', q)
  {
  }

  /** A standby joins the list under a fresh id. */
  lemma Grows(t: Table, g: Generation, p: Pool, q: Pool)
    requires Sound(t, p) && g.id == p.nextId && g.status == Starting
    requires q.nextId == p.nextId + 1 && q.polls == p.polls && q.aborts == p.aborts
    requires CapturedId(q) == CapturedId(p) && (Commits(q) ==> Commits(p))
    requires
      || (RunStandby(q) == Some(Handle(g.id, g.endpoint)) && RunStandby(p).None? &&
            RecoveryStandby(q) == RecoveryStandby(p))
      || (RecoveryStandby(q) == Some(Handle(g.id, g.endpoint)) && RecoveryStandby(p).None? &&
            RunStandby(q) == RunStandby(p))
    ensures Sound(t[g.id := g], q)
  {
  }

  /** A flip: the standby is promoted where it is listed, the captured primary demoted. */
  ghost predicate FlipEnds(p: Pool, q: Pool) {
    && q.nextId == p.nextId && q.inFlight == Some(Settled) && q.recovery == p.recovery
    && q.aborts == p.aborts && forall id | id in q.polls :: id in p.polls || CapturedId(p) == Some(id)
  }

  lemma FlipTicks(t: Table, p: Pool, q: Pool, deadline: Option<int>)
    requires Sound(t, p) && p.inFlight.Some? && p.inFlight.value.ListingRequests? && FlipEnds(p, q)
    ensures var t' := FlippedTable(t, p.inFlight.value.standby.id, p.inFlight.value.primary, deadline);
      Ticks(t', q.polls, q.aborts, q.nextId) && Stands(t', q, RecoveryStandby(q))
  {
    hide AtMostOne, NoneIs;
  }

  lemma FlipsSound(t: Table, p: Pool, q: Pool, deadline: Option<int>)
    requires Sound(t, p) && p.inFlight.Some? && p.inFlight.value.ListingRequests? && FlipEnds(p, q)
    ensures Sound(FlippedTable(t, p.inFlight.value.standby.id, p.inFlight.value.primary, deadline), q)
  {
    FlipTicks(t, p, q, deadline);
    hide Ticks, Stands;
  }

  lemma ReplacesSound(t: Table, p: Pool, q: Pool)
    requires Sound(t, p) && Replacing(p) && q.nextId == p.nextId
    requires q.inFlight == p.inFlight && q.recovery.None? && q.polls == p.polls && q.aborts == p.aborts
    ensures Sound(FlippedTable(t, p.recovery.value.replacement.id, None, None), q)
  {
  }

  ghost predicate Steady(p: Pool) {
    DistinctIds(p.generations) && Sound(TableOf(p.generations), p)
  }

  /** A run moves on: a primary it captures is one, and it commits only while none drains. */
  ghost predicate Drives(t: Table, a: Option<Run>, b: Option<Run>) {
    && Standby(b, None) == Standby(a, None)
    && (CapturedBy(b).None? || CapturedBy(b) == CapturedBy(a) || Has(t, CapturedBy(b).value, Primary))
    && (IsCommitted(b) ==> IsCommitted(a) || NoneIs(t, Draining))
  }

  lemma DecideDrives(p: Pool, request: Request, fingerprint: string, primary: Option<Id>, now: int)
    requires DistinctIds(p.generations) && Standby(p.inFlight, None).None?
    requires primary.Some? ==> CapturedId(p) == primary || Has(TableOf(p.generations), primary.value, Primary)
    ensures Drives(TableOf(p.generations), p.inFlight, Decide(p, request, fingerprint, primary, now).inFlight)
  {
    DrainingFound(p.generations);
    hide Find, DistinctIds, TableOf, Has, NoneIs;
  }

  lemma ProbeDrives(p: Pool, request: Request, fingerprint: string)
    requires DistinctIds(p.generations) && Standby(p.inFlight, None).None?
    ensures Drives(TableOf(p.generations), p.inFlight, Some(Settled))
    ensures Drives(TableOf(p.generations), p.inFlight,
                   Some(ProbingBusy(request, fingerprint, PrimaryId(p.generations))))
  {
    PrimaryFound(p.generations);
    hide DistinctIds, TableOf, Has, NoneIs, PrimaryId;
  }

  lemma PreparedDrives(p: Pool, fingerprint: string, now: int)
    requires DistinctIds(p.generations) && p.inFlight.Some? && p.inFlight.value.Preparing?
    ensures Drives(TableOf(p.generations), p.inFlight, Prepared(p, fingerprint, now).inFlight)
  {
    var request, primary := p.inFlight.value.request, PrimaryId(p.generations);
    ProbeDrives(p, request, fingerprint);
    assert IsPrimary(TableOf(p.generations), primary) by { PrimaryFound(p.generations); }
    DecideDrives(p, request, fingerprint, primary, now);
    hide Find, DistinctIds, TableOf, Has, NoneIs, PrimaryId, Decide, Drives, IsPrimary, Standby;
  }

  lemma BusyDrives(p: Pool, busy: bool, now: int)
    requires DistinctIds(p.generations)
    ensures Drives(TableOf(p.generations), p.inFlight, BusyKnown(p, busy, now).inFlight)
  {
    hide DistinctIds, TableOf, Has, NoneIs, Decide;
    if p.inFlight.Some? && p.inFlight.value.ProbingBusy? {
      DecideDrives(p, p.inFlight.value.request, p.inFlight.value.fingerprint, p.inFlight.value.primary, now);
    }
  }

  /** The other segments of a run before its flip. */
  lemma PhaseDrives(t: Table, p: Pool, e: Event)
    requires e.ERegistered? || e.ESessionsListed?
    ensures Drives(t, p.inFlight, Next(p, e).inFlight)
  {
    hide Has, NoneIs;
  }

  lemma RestDrives(t: Table, p: Pool, e: Event)
    requires e.EDrainResumed? || e.EStandbyClosed?
    ensures Drives(t, p.inFlight, Next(p, e).inFlight)
  {
    hide Has, NoneIs;
  }

  lemma StartDrives(t: Table, p: Pool, e: Event)
    requires e.ERequest? || e.ESettle?
    ensures Drives(t, p.inFlight, Next(p, e).inFlight)
  {
    hide Has, NoneIs, Merge;
  }

  lemma NotPrepared(p: Pool, fingerprint: string, now: int)
    requires !(p.inFlight.Some? && p.inFlight.value.Preparing?)
    ensures Prepared(p, fingerprint, now) == p
  {
  }

  lemma SamePhase(t: Table, run: Option<Run>)
    ensures Drives(t, run, run)
  {
    hide Standby, CapturedBy, IsCommitted;
  }

  lemma MovingContinues(p: Pool, e: Event)
    requires DistinctIds(p.generations) && Moving(e)
    ensures var t := TableOf(p.generations); Continues(t, t, p, Next(p, e))
  {
    assert Drives(TableOf(p.generations), p.inFlight, Next(p, e).inFlight) by {
      hide Prepared, BusyKnown, TableOf, DistinctIds, Drives;
      match e
      case EPrepared(fingerprint, now) =>
        if p.inFlight.Some? && p.inFlight.value.Preparing? {
          PreparedDrives(p, fingerprint, now);
        } else {
          SamePhase(TableOf(p.generations), p.inFlight);
          assert Prepared(p, fingerprint, now) == p by { NotPrepared(p, fingerprint, now); }
        }
      case EBusyKnown(busy, now) => BusyDrives(p, busy, now);
      case ERegistered => PhaseDrives(TableOf(p.generations), p, e);
      case ESessionsListed(_) => PhaseDrives(TableOf(p.generations), p, e);
      case EDrainResumed => RestDrives(TableOf(p.generations), p, e);
      case EStandbyClosed => RestDrives(TableOf(p.generations), p, e);
      case _ => StartDrives(TableOf(p.generations), p, e);
    }
    MovingMoves(p, e);
    hide Next, TableOf, DistinctIds, Has, NoneIs, Captured, Committed, Standby;
  }

  // -------------------------------------------------------- the other events

  predicate OfTicks(e: Event) {
    e.ETickStarted? || e.EPollReturned? || e.EAbortsDone? || e.EDisposeNext?
  }

  /** No continuation moves, and a drain tick starts only for a draining engine. */
  ghost predicate TicksOn(p: Pool, q: Pool) {
    && q.inFlight == p.inFlight && q.recovery == p.recovery && q.nextId == p.nextId
    && forall id | id in q.polls || id in q.aborts ::
         id in p.polls || id in p.aborts || StatusOf(p.generations, id) == Draining
  }

  lemma PolledContinues(p: Pool, id: Id, remaining: set<string>, now: int)
    ensures TicksOn(p, PollReturned(p, id, remaining, now))
  {
    PollTouches(p, id, remaining, now);
    PollKeepsAborts(p, id, remaining, now);
    if id !in p.polls { NoPoll(p, id, remaining, now); }
    hide PollReturned, StatusOf;
  }

  lemma TicksContinue(p: Pool, e: Event)
    requires OfTicks(e)
    ensures TicksOn(p, Next(p, e))
  {
    hide PollReturned, RetireStarted, StatusOf;
    match e
    case ETickStarted(_) =>
    case EPollReturned(id, remaining, now) => PolledContinues(p, id, remaining, now);
    case EAbortsDone(id) => RetireTouches(p.(aborts := p.aborts - multiset{id}), id, Forced);
    case EDisposeNext =>
      if p.disposal != [] { RetireTouches(p.(disposal := p.disposal[1..]), p.disposal[0], Shutdown); }
  }

  lemma TickContinues(p: Pool, e: Event)
    requires OfTicks(e)
    ensures Continues(TableOf(p.generations), TableAfter(p, e), p, Next(p, e))
  {
    var t := TableOf(p.generations);
    TicksContinue(p, e);
    hide Next, TableOf, TableAfter, Standby, Captured, Committed, Has;
    forall id | StatusOf(p.generations, id) == Draining ensures Has(t, id, Draining) { StatusFound(p.generations, id); }
    hide StatusOf;
  }

  /** The other events leave the ticks alone, and drive no run anywhere. */
  ghost predicate Rests(p: Pool, q: Pool) {
    && q.polls == p.polls && q.aborts == p.aborts && q.nextId == p.nextId
    && RecoveryStandby(q) == RecoveryStandby(p) && Carries(p.inFlight, q.inFlight)
  }

  /** A run learns nothing: it may forget its primary, and drop its commitment. */
  ghost predicate Carries(a: Option<Run>, b: Option<Run>) {
    && Standby(b, None) == Standby(a, None)
    && (CapturedBy(b).None? || CapturedBy(b) == CapturedBy(a))
    && (IsCommitted(b) ==> IsCommitted(a))
  }

  lemma SameCarries(run: Option<Run>)
    ensures Carries(run, run)
  {
    hide Standby, CapturedBy, IsCommitted;
  }

  predicate OfRest(e: Event) {
    !Moving(e) && !OfTicks(e) && !Flips(e) && !e.ESpawned? && !e.EReplacementChecked?
  }

  lemma ClosedContinues(p: Pool, id: Id)
    ensures Rests(p, Closed(p, id))
  {
    ClosedKeepsTicks(p, id);
    hide Without, Merge;
  }

  /** The recovery's segments that add no engine. */
  lemma RecoveryRests(p: Pool, e: Event)
    requires e.ERecoveryStarted? || e.EOldClosed? || e.EReplacementSpawned?
    ensures Rests(p, Next(p, e))
  {
    SameCarries(p.inFlight);
    hide Carries, Without, PrimaryId;
  }

  lemma RestContinues(p: Pool, e: Event)
    requires OfRest(e) && !e.EHealthKnown? && !e.EClosed?
    requires !e.ERecoveryStarted? && !e.EOldClosed? && !e.EReplacementSpawned?
    ensures Rests(p, Next(p, e))
  {
    hide RouteRequest, ForwardEvent, Fingerprinted, Ids, AddOwner;
    match e
    case ERoute(path) => RouteTouchesOwners(p, path);
    case EForward(id, payload) => ForwardTouchesPins(p, id, payload);
    case _ =>
  }

  lemma RestsOn(p: Pool, q: Pool, t: Table, t': Table)
    requires Rests(p, q)
    ensures Continues(t, t', p, q)
  {
    hide Standby, Captured, Committed;
  }

  lemma RestsContinue(p: Pool, e: Event)
    requires OfRest(e) && !e.EHealthKnown?
    ensures Continues(TableOf(p.generations), TableAfter(p, e), p, Next(p, e))
  {
    hide TableOf, TableAfter, Rests, Closed, Continues;
    if e.EClosed? {
      ClosedContinues(p, e.id);
      assert Next(p, e) == Closed(p, e.id);
      hide Next;
    } else {
      hide Next;
      if e.ERecoveryStarted? || e.EOldClosed? || e.EReplacementSpawned? {
        RecoveryRests(p, e);
      } else {
        RestContinues(p, e);
      }
    }
    RestsOn(p, Next(p, e), TableOf(p.generations), TableAfter(p, e));
  }

  lemma HealthContinues(p: Pool, healthy: bool, t: Table, t': Table)
    requires !healthy && RunStandby(p).Some? ==> RunStandby(p).value.id !in t'
    ensures Continues(t, t', p, HealthKnown(p, healthy))
  {
    hide Without, Has, NoneIs;
  }

  lemma HealthStep(p: Pool, healthy: bool)
    ensures Continues(TableOf(p.generations), TableAfter(p, EHealthKnown(healthy)), p, HealthKnown(p, healthy))
  {
    hide TableOf, Continues, HealthKnown;
    if p.inFlight.Some? && p.inFlight.value.CheckingHealth? {
      HealthContinues(p, healthy, TableOf(p.generations), TableAfter(p, EHealthKnown(healthy)));
    } else {
      NotChecking(p, healthy);
      RestsSame(p, TableOf(p.generations));
    }
  }

  lemma RestsSame(p: Pool, t: Table)
    ensures Continues(t, t, p, p)
  {
    hide Standby, CapturedId, Commits;
  }

  lemma NotChecking(p: Pool, healthy: bool)
    requires !(p.inFlight.Some? && p.inFlight.value.CheckingHealth?)
    ensures HealthKnown(p, healthy) == p
  {
  }

  /** A standby or a replacement joins the list. */
  ghost predicate Appends(p: Pool, e: Event) {
    || (e.ESpawned? && e.handle.Some? && AtSpawn(p))
    || (e.EReplacementChecked? && e.healthy && p.recovery.Some? && p.recovery.value.CheckingReplacement?)
  }

  lemma NoSpawn(p: Pool, handle: Option<Endpoint>, t: Table)
    requires !(handle.Some? && AtSpawn(p))
    ensures Continues(t, t, p, Spawned(p, handle))
  {
    hide Has, NoneIs;
  }

  lemma NoCheck(p: Pool, healthy: bool, fingerprint: string)
    requires !(healthy && p.recovery.Some? && p.recovery.value.CheckingReplacement?)
    ensures Rests(p, ReplacementChecked(p, healthy, fingerprint))
  {
    SameCarries(p.inFlight);
    hide Carries;
  }

  lemma StepContinues(p: Pool, e: Event)
    requires DistinctIds(p.generations) && !Flips(e) && !Appends(p, e)
    ensures Continues(TableOf(p.generations), TableAfter(p, e), p, Next(p, e))
  {
    hide TableOf, Continues, DistinctIds, HealthKnown, Spawned, ReplacementChecked;
    if Moving(e) {
      MovingContinues(p, e);
      assert TableAfter(p, e) == TableOf(p.generations);
    } else if OfTicks(e) {
      TickContinues(p, e);
    } else {
      match e
      case ESpawned(handle) => NoSpawn(p, handle, TableOf(p.generations));
      case EHealthKnown(healthy) => HealthStep(p, healthy);
      case EReplacementChecked(healthy, fingerprint) =>
        NoCheck(p, healthy, fingerprint);
        RestsOn(p, ReplacementChecked(p, healthy, fingerprint), TableOf(p.generations), TableOf(p.generations));
      case _ => RestsContinue(p, e);
    }
  }

  lemma BelowStep(p: Pool, e: Event)
    requires !Flips(e) && !Appends(p, e)
    ensures Below(TableAfter(p, e), TableOf(p.generations))
  {
    hide TableOf;
  }

  lemma AppendSound(p: Pool, e: Event)
    requires Steady(p) && Appends(p, e)
    ensures Steady(Next(p, e))
  {
    StepBecomes(p, e);
    hide Sound, TableOf, DistinctIds, Captured, Committed;
    if e.ESpawned? {
      var g := Generation(p.nextId, e.handle.value, Starting, p.inFlight.value.fingerprint, None);
      Grows(TableOf(p.generations), g, p, Next(p, e));
    } else {
      var g := Generation(p.nextId, p.recovery.value.endpoint, Starting, e.fingerprint, None);
      Grows(TableOf(p.generations), g, p, Next(p, e));
    }
  }

  lemma FlipContinues(p: Pool, now: int)
    requires FlipReady(p)
    ensures FlipEnds(p, Flipped(p, now))
  {
    hide Flipped, FlippedList, PointedAt, AddOwner;
    FlippedOutcome(p, now);
  }

  lemma FlipBelongs(p: Pool, now: int)
    requires DistinctIds(p.generations) && FlipReady(p)
    ensures var run := p.inFlight.value;
      Becomes(p, Flipped(p, now),
              FlippedTable(TableOf(p.generations), run.standby.id, run.primary, Some(now + p.settings.drainTimeoutMs)))
  {
    hide Flipped, TableOf, DistinctIds, FlippedTable, FlippedList, FlipOutcome;
    var run := p.inFlight.value;
    FlippedOutcome(p, now);
    FlippedListTable(p.generations, run.standby.id, run.primary, now + p.settings.drainTimeoutMs);
    FlipLists(p, Flipped(p, now), run, now + p.settings.drainTimeoutMs);
  }

  lemma FlipLists(p: Pool, q: Pool, run: Run, deadline: int)
    requires run.ListingRequests? && FlipOutcome(p, q, run, deadline)
    ensures q.generations == FlippedList(p.generations, run.standby.id, run.primary, deadline)
  {
    hide FlippedList, PointedAt, AddOwner;
  }

  lemma FlipSound(p: Pool, now: int)
    requires Steady(p)
    ensures Steady(Flipped(p, now))
  {
    hide Flipped, Sound, TableOf, DistinctIds, FlippedTable, FlipEnds;
    if FlipReady(p) {
      FlipBelongs(p, now);
      FlipContinues(p, now);
      FlipsSound(TableOf(p.generations), p, Flipped(p, now), Some(now + p.settings.drainTimeoutMs));
    } else {
      FlipIdle(p, now);
    }
  }

  lemma ReplaceSound(p: Pool)
    requires Steady(p)
    ensures Steady(Next(p, EReplacementRegistered))
  {
    StepBecomes(p, EReplacementRegistered);
    ReplacementTouches(p);
    hide Sound, TableOf, DistinctIds, FlippedTable, Flip;
    if Replacing(p) { ReplacesSound(TableOf(p.generations), p, ReplacementRegistered(p)); }
  }

  lemma StepSteady(p: Pool, e: Event)
    requires Steady(p)
    ensures Steady(Next(p, e))
  {
    if e.EFlipped? {
      hide Steady, Flipped;
      FlipSound(p, e.now);
    } else if e.EReplacementRegistered? {
      hide Steady;
      ReplaceSound(p);
    } else if Appends(p, e) {
      hide Steady, Next;
      AppendSound(p, e);
    } else {
      StepBecomes(p, e);
      StepContinues(p, e);
      BelowStep(p, e);
      hide Next, Sound, TableOf, TableAfter, Continues, DistinctIds, Below;
      Shrinks(TableOf(p.generations), TableAfter(p, e), p, Next(p, e));
    }
  }

  /** ... in every run, whatever overlaps. */
  lemma {:induction false} RunSteady(p: Pool, events: seq<Event>)
    requires Steady(p)
    ensures Steady(After(p, events))
    decreases |events|
  {
    if events != [] {
      StepSteady(p, events[0]);
      hide Steady, Next;
      RunSteady(Next(p, events[0]), events[1..]);
    }
  }

  lemma AdoptedSteady(settings: Settings, config: Config, endpoint: Endpoint, fingerprint: string, now: int)
    ensures Steady(Adopted(settings, config, endpoint, fingerprint, now))
  {
    var p := Adopted(settings, config, endpoint, fingerprint, now);
    assert TableOf(p.generations) == map[0 := Generation(0, endpoint, Primary, fingerprint, None)];
  }

  // --------------------------------------------------------------- primaries

  ghost function Those(t: Table, status: Status): set<Id> {
    set id | id in t && t[id].status == status
  }

  /** The engine an event promotes: a listed standby. */
  ghost function Promoted(p: Pool, e: Event): set<Id> {
    var t := TableOf(p.generations);
    if e.EFlipped? && FlipReady(p) && p.inFlight.value.standby.id in t then {p.inFlight.value.standby.id}
    else if e.EReplacementRegistered? && Replacing(p) && p.recovery.value.replacement.id in t
    then {p.recovery.value.replacement.id} else {}
  }

  /** The engines an event takes out of service, if they serve. */
  ghost function Removed(p: Pool, e: Event): set<Id> {
    match e
    case EFlipped(_) => if FlipReady(p) && p.inFlight.value.primary.Some? then {p.inFlight.value.primary.value} else {}
    case EOldClosed(ok) =>
      if ok && p.recovery.Some? && p.recovery.value.ClosingOld? then {p.recovery.value.previous} else {}
    case EClosed(id) => if id in p.closing then {id} else {}
    case EDisposeNext => if p.disposal != [] then {p.disposal[0]} else {}
    case EDisposeEnded => if p.disposed && p.disposal == [] then TableOf(p.generations).Keys else {}
    case _ => {}
  }

  lemma FlipPrimaries(p: Pool, e: Event)
    requires Steady(p) && Flips(e)
    ensures Those(TableAfter(p, e), Primary) == Those(TableOf(p.generations), Primary) + Promoted(p, e) - Removed(p, e)
  {
    hide TableOf, DistinctIds, Ticks, Stands, NoneIs, AtMostOne;
  }

  lemma OtherPrimaries(p: Pool, e: Event)
    requires Steady(p) && !Flips(e)
    ensures Those(TableAfter(p, e), Primary) == Those(TableOf(p.generations), Primary) - Removed(p, e)
    ensures Promoted(p, e) == {}
  {
    hide TableOf, DistinctIds, NoneIs, AtMostOne;
  }

  /** Only a flip or a replacement promotes, and only these events take out of service. */
  lemma PrimariesStep(p: Pool, e: Event)
    requires Steady(p)
    ensures Those(TableAfter(p, e), Primary) == Those(TableOf(p.generations), Primary) + Promoted(p, e) - Removed(p, e)
  {
    hide Steady, TableOf, TableAfter, Those, Promoted, Removed;
    if Flips(e) { FlipPrimaries(p, e); } else { OtherPrimaries(p, e); }
  }

  lemma {:induction false} CountThose(gens: seq<Generation>, status: Status)
    requires DistinctIds(gens)
    ensures Count(gens, status) == |Those(TableOf(gens), status)|
  {
    if gens == [] {
      assert Those(TableOf(gens), status) == {};
    } else {
      var rest, g := gens[1..], gens[0];
      CountThose(rest, status);
      HeadApart(gens);
      hide DistinctIds;
      OneMore(TableOf(rest), g, status);
    }
  }

  lemma OneMore(t: Table, g: Generation, status: Status)
    requires g.id !in t
    ensures |Those(t[g.id := g], status)| == |Those(t, status)| + if g.status == status then 1 else 0
  {
    assert Those(t[g.id := g], status) == Those(t, status) + if g.status == status then {g.id} else {};
  }

  lemma HeadApart(gens: seq<Generation>)
    requires DistinctIds(gens) && gens != []
    ensures gens[0].id !in TableOf(gens[1..])
  {
    TableKeys(gens[1..]);
  }

  lemma ThoseListed(gens: seq<Generation>, status: Status)
    requires DistinctIds(gens)
    ensures forall id :: id in Those(TableOf(gens), status) <==> exists g <- gens :: g.id == id && g.status == status
  {
    TableKeys(gens);
    forall g | g in gens ensures TableOf(gens)[g.id] == g {
      var i :| 0 <= i < |gens| && gens[i] == g;
      TableMember(gens, i);
    }
    hide DistinctIds, TableOf;
  }

  /** Whatever event promotes an engine, every engine that served before it is taken out of
      service by the same event: a flip finds no primary but the one its run captured, a
      replacement finds none. */
  ghost predicate Guarded(p: Pool, e: Event) {
    Promoted(p, e) != {} ==> forall g <- p.generations | g.status == Primary :: g.id in Removed(p, e)
  }

  /** One primary at most, of these after the event. */
  lemma SetsOne(before: set<Id>, promoted: set<Id>, removed: set<Id>, next: Id)
    requires promoted == {next} && next !in before && next !in removed
    ensures |before + promoted - removed| <= 1 <==> before <= removed
  {
    var after := before + promoted - removed;
    if before <= removed {
      assert after == {next};
    } else {
      var id :| id in before && id !in removed;
      assert {id, next} <= after && |{id, next}| == 2;
      Subset({id, next}, after);
    }
  }

  lemma Subset(a: set<Id>, b: set<Id>)
    requires a <= b
    ensures |a| <= |b|
  {
    assert b == a + (b - a);
  }

  lemma PromotedApart(p: Pool, e: Event)
    requires Steady(p) && Promoted(p, e) != {}
    ensures exists next :: Promoted(p, e) == {next} && next !in Removed(p, e) && next !in Those(TableOf(p.generations), Primary)
  {
    hide TableOf, DistinctIds;
    var next :| next in Promoted(p, e);
    assert Promoted(p, e) == {next};
  }

  lemma PrimariesCount(p: Pool, e: Event)
    requires Steady(p)
    ensures Count(p.generations, Primary) == |Those(TableOf(p.generations), Primary)|
    ensures Count(Next(p, e).generations, Primary) ==
            |Those(TableOf(p.generations), Primary) + Promoted(p, e) - Removed(p, e)|
    ensures Guarded(p, e) <==> (Promoted(p, e) != {} ==> Those(TableOf(p.generations), Primary) <= Removed(p, e))
  {
    StepBecomes(p, e);
    PrimariesStep(p, e);
    hide Next, Count, Sound, TableAfter, Those, Promoted, Removed;
    CountThose(p.generations, Primary);
    CountThose(Next(p, e).generations, Primary);
    ThoseListed(p.generations, Primary);
  }

  /** A promotion leaves one primary exactly when it is guarded. */
  lemma PromotionKeepsOne(p: Pool, e: Event)
    requires Steady(p) && Promoted(p, e) != {}
    ensures Count(Next(p, e).generations, Primary) <= 1 <==> Guarded(p, e)
    ensures Guarded(p, e) ==> Count(Next(p, e).generations, Primary) == 1
  {
    hide Next, Count, Those, Guarded, Promoted, Removed, Steady;
    var t := TableOf(p.generations);
    PrimariesCount(p, e);
    PromotedApart(p, e);
    var next :| Promoted(p, e) == {next} && next !in Removed(p, e) && next !in Those(t, Primary);
    SetsOne(Those(t, Primary), {next}, Removed(p, e), next);
    if Guarded(p, e) { assert Those(t, Primary) + {next} - Removed(p, e) == {next}; }
  }

  /** Over any pool a run can reach, a flip leaves one primary at most exactly when every
      primary of the list is the one its run captured. */
  lemma FlipKeepsOne(p: Pool, now: int)
    requires Steady(p) && FlipReady(p) && p.inFlight.value.standby.id in TableOf(p.generations)
    ensures Count(Flipped(p, now).generations, Primary) <= 1 <==>
            forall g <- p.generations | g.status == Primary :: p.inFlight.value.primary == Some(g.id)
  {
    hide Flipped, Count, TableOf, Steady;
    PromotionKeepsOne(p, EFlipped(now));
  }

  /** ... and the flip to a replacement, exactly when nobody is primary. */
  lemma ReplacementKeepsOne(p: Pool)
    requires Steady(p) && Replacing(p) && p.recovery.value.replacement.id in TableOf(p.generations)
    ensures Count(ReplacementRegistered(p).generations, Primary) <= 1 <==>
            forall g <- p.generations :: g.status != Primary
  {
    hide ReplacementRegistered, Count, TableOf, Steady;
    PromotionKeepsOne(p, EReplacementRegistered);
  }

  // ------------------------------------------------------- one primary, exactly

  ghost predicate GuardedRun(p: Pool, events: seq<Event>)
    decreases |events|
  {
    events != [] ==> Guarded(p, events[0]) && GuardedRun(Next(p, events[0]), events[1..])
  }

  /** In every state of the run at most one engine is primary. */
  ghost predicate AlwaysOne(p: Pool, events: seq<Event>)
    decreases |events|
  {
    Count(p.generations, Primary) <= 1 && (events != [] ==> AlwaysOne(Next(p, events[0]), events[1..]))
  }

  lemma StepKeepsOne(p: Pool, e: Event)
    requires Steady(p) && Count(p.generations, Primary) <= 1
    ensures Count(Next(p, e).generations, Primary) <= 1 <==> Guarded(p, e)
  {
    hide Next, Count, Those, Guarded, Promoted, Removed, Steady, TableOf;
    if Promoted(p, e) != {} {
      PromotionKeepsOne(p, e);
    } else {
      PrimariesCount(p, e);
      var before := Those(TableOf(p.generations), Primary);
      Subset(before + {} - Removed(p, e), before);
      assert before + Promoted(p, e) - Removed(p, e) == before + {} - Removed(p, e);
      NothingPromoted(p, e);
    }
  }

  lemma NothingPromoted(p: Pool, e: Event)
    requires Promoted(p, e) == {}
    ensures Guarded(p, e)
  {
  }

  /** In every run from a pool with one primary, whatever overlaps: at most one engine is
      ever primary exactly when every promotion is guarded. */
  lemma {:induction false} AlwaysOneIff(p: Pool, events: seq<Event>)
    requires Steady(p) && Count(p.generations, Primary) <= 1
    ensures AlwaysOne(p, events) <==> GuardedRun(p, events)
    decreases |events|
  {
    if events != [] {
      StepSteady(p, events[0]);
      StepKeepsOne(p, events[0]);
      hide Steady, Next, Guarded, Count;
      if Guarded(p, events[0]) { AlwaysOneIff(Next(p, events[0]), events[1..]); }
    }
  }

  /** Some engine serves at the end, given whether one does at the start: the last event
      that promoted one or took the one that served out of service decides. */
  ghost predicate Serving(p: Pool, events: seq<Event>, serving: bool)
    decreases |events|
  {
    if events == [] then serving
    else Serving(Next(p, events[0]), events[1..], Promoted(p, events[0]) != {} || (serving && !TakesAway(p, events[0])))
  }

  ghost predicate TakesAway(p: Pool, e: Event) {
    exists g <- p.generations :: g.status == Primary && g.id in Removed(p, e)
  }

  function Number(one: bool): nat {
    if one then 1 else 0
  }

  lemma StepServing(p: Pool, e: Event, serving: bool)
    requires Steady(p) && Guarded(p, e) && Count(p.generations, Primary) == Number(serving)
    ensures Count(Next(p, e).generations, Primary) ==
            Number(Promoted(p, e) != {} || (serving && !TakesAway(p, e)))
  {
    hide Next, Count, Those, Guarded, Promoted, Removed, Sound, TableOf;
    if Promoted(p, e) != {} {
      PromotionKeepsOne(p, e);
    } else {
      PrimariesCount(p, e);
      ThoseListed(p.generations, Primary);
      hide DistinctIds;
      OneLess(Those(TableOf(p.generations), Primary), Removed(p, e));
      assert Those(TableOf(p.generations), Primary) + Promoted(p, e) == Those(TableOf(p.generations), Primary);
    }
  }

  lemma OneLess(before: set<Id>, removed: set<Id>)
    requires |before| <= 1
    ensures |before - removed| == if exists id <- before :: id in removed then 0 else |before|
  {
    if id :| id in before && id in removed {
      assert before == {id} by { if other :| other in before && other != id { Subset({id, other}, before); } }
      assert before - removed == {};
    } else {
      assert before - removed == before;
    }
  }

  lemma {:induction false} RunServing(p: Pool, events: seq<Event>, serving: bool)
    requires Steady(p) && GuardedRun(p, events) && Count(p.generations, Primary) == Number(serving)
    ensures Count(After(p, events).generations, Primary) == Number(Serving(p, events, serving))
    decreases |events|
  {
    if events != [] {
      var e := events[0];
      StepSteady(p, e);
      StepServing(p, e, serving);
      hide Steady, Next, Guarded, Count, Promoted, TakesAway;
      RunServing(Next(p, e), events[1..], Promoted(p, e) != {} || (serving && !TakesAway(p, e)));
    }
  }

  // ----------------------------------------------- until a disposal begins

  ghost predicate Waits(t: Table, h: Option<Handle>) {
    h.Some? ==> Has(t, h.value.id, Starting)
  }

  /** The engine a recovery is closing. */
  ghost function Closing(p: Pool): Option<Id> {
    if p.recovery.Some? && p.recovery.value.ClosingOld? then Some(p.recovery.value.previous) else None
  }

  /** Before a disposal: standbys wait in the list, a captured primary still is one while it
      is listed, and only dead engines are being closed by a retirement. */
  ghost predicate Live(t: Table, p: Pool) {
    && (p.disposal != [] ==> p.disposed)
    && (!p.disposed ==>
          && Waits(t, RunStandby(p)) && Waits(t, RecoveryStandby(p))
          && (CapturedId(p).Some? && CapturedId(p).value in t ==> t[CapturedId(p).value].status == Primary)
          && (Closing(p).Some? ==> Closing(p).value < p.nextId && Apart(RunStandby(p), Closing(p)))
          && (forall id <- p.closing :: id < p.nextId && (id in t ==> t[id].status == Dead)))
  }

  /** Entries of `t` other than those in `gone` that start or serve go on in `t'`. */
  ghost predicate Lasts(t: Table, t': Table, gone: Option<Id>) {
    && (forall id <- t | t[id].status == Starting && Some(id) != gone :: Has(t', id, Starting))
    && (forall id <- t' :: id in t && (t[id].status == Primary ==> t'[id].status == Primary))
  }

  lemma LiveLasts(t: Table, t': Table, p: Pool, q: Pool, gone: Option<Id>)
    requires Sound(t, p) && Live(t, p) && Below(t', t) && Continues(t, t', p, q) && Lasts(t, t', gone)
    requires !p.disposed && q.disposal == [] && Apart(RunStandby(q), gone) && Apart(RecoveryStandby(q), gone)
    requires Closing(q).None? || Closing(q) == Closing(p) || Has(t, Closing(q).value, Primary)
    requires forall id <- q.closing :: id in p.closing || (id < p.nextId && (id in t' ==> t'[id].status == Dead))
    ensures Live(t', q)
  {
  }

  /** The standby an unhealthy answer drops. */
  ghost function Gone(p: Pool, e: Event): Option<Id> {
    if e.EHealthKnown? && !e.healthy && p.inFlight.Some? && p.inFlight.value.CheckingHealth?
    then Some(p.inFlight.value.standby.id) else None
  }

  lemma LastsStep(p: Pool, e: Event)
    requires Steady(p) && Live(TableOf(p.generations), p) && !p.disposed && !Flips(e) && !Appends(p, e)
    ensures Lasts(TableOf(p.generations), TableAfter(p, e), Gone(p, e))
  {
    hide TableOf, DistinctIds;
  }

  lemma ClosingStep(p: Pool, e: Event, id: Id)
    requires Steady(p) && Live(TableOf(p.generations), p) && !p.disposed
    requires id in Next(p, e).closing && id !in p.closing
    ensures id < p.nextId && (id in TableAfter(p, e) ==> TableAfter(p, e)[id].status == Dead)
  {
    ClosingGrows(p, e, id);
    hide TableOf, DistinctIds;
  }

  lemma FlipLive(t: Table, p: Pool, q: Pool, deadline: Option<int>)
    requires Sound(t, p) && Live(t, p) && !p.disposed && FlipReady(p) && FlipEnds(p, q)
    requires q.closing == p.closing && q.disposed == p.disposed && q.disposal == p.disposal
    ensures Live(FlippedTable(t, p.inFlight.value.standby.id, p.inFlight.value.primary, deadline), q)
  {
  }

  lemma ReplaceLive(t: Table, p: Pool, q: Pool)
    requires Sound(t, p) && Live(t, p) && !p.disposed && Replacing(p)
    requires q.inFlight == p.inFlight && q.recovery.None? && q.nextId == p.nextId
    requires q.closing == p.closing && q.disposed == p.disposed && q.disposal == p.disposal
    ensures Live(FlippedTable(t, p.recovery.value.replacement.id, None, None), q)
  {
  }

  lemma AppendLive(t: Table, g: Generation, p: Pool, q: Pool)
    requires Sound(t, p) && Live(t, p) && !p.disposed && g.id == p.nextId && g.status == Starting
    requires q.nextId == p.nextId + 1 && CapturedId(q) == CapturedId(p)
    requires q.closing == p.closing && q.disposed == p.disposed && q.disposal == p.disposal
    requires Closing(q).None? || Closing(q) == Closing(p)
    requires
      || (RunStandby(q) == Some(Handle(g.id, g.endpoint)) && RecoveryStandby(q) == RecoveryStandby(p))
      || (RecoveryStandby(q) == Some(Handle(g.id, g.endpoint)) && RunStandby(q) == RunStandby(p))
    ensures Live(t[g.id := g], q)
  {
  }

  lemma StaysUndisposed(p: Pool, e: Event)
    requires !Next(p, e).disposed && (p.disposal != [] ==> p.disposed)
    ensures !p.disposed && Next(p, e).disposal == []
  {
    if OfRun(e) {
      RunRolls(p, e);
      hide Next;
    } else {
      hide PollReturned, RetireStarted, Flipped, Flip, RouteRequest, ForwardEvent, Without, AddOwner, PrimaryId, Merge;
      match e
      case EPollReturned(id, remaining, now) => PollTouches(p, id, remaining, now);
      case EAbortsDone(id) => RetireTouches(p.(aborts := p.aborts - multiset{id}), id, Forced);
      case EDisposeNext =>
        if p.disposal != [] { RetireTouches(p.(disposal := p.disposal[1..]), p.disposal[0], Shutdown); }
      case EFlipped(now) => FlippedTouches(p, now);
      case EReplacementRegistered => ReplacementTouches(p);
      case ERoute(path) => RouteTouchesOwners(p, path);
      case EForward(id, payload) => ForwardTouchesPins(p, id, payload);
      case _ =>
    }
  }

  lemma ClosingStays(p: Pool, e: Event)
    requires !e.ERecoveryStarted?
    ensures Closing(Next(p, e)).None? || Closing(Next(p, e)) == Closing(p)
  {
    if OfRun(e) {
      RunRolls(p, e);
      hide Next;
    } else {
      hide PollReturned, RetireStarted, Flipped, Flip, RouteRequest, ForwardEvent, Without, AddOwner, Merge, Ids;
      match e
      case EPollReturned(id, remaining, now) => PollTouches(p, id, remaining, now);
      case EAbortsDone(id) => RetireTouches(p.(aborts := p.aborts - multiset{id}), id, Forced);
      case EDisposeNext =>
        if p.disposal != [] { RetireTouches(p.(disposal := p.disposal[1..]), p.disposal[0], Shutdown); }
      case EFlipped(now) => FlippedTouches(p, now);
      case ERoute(path) => RouteTouchesOwners(p, path);
      case EForward(id, payload) => ForwardTouchesPins(p, id, payload);
      case _ =>
    }
  }

  lemma ClosingStarts(p: Pool)
    requires DistinctIds(p.generations)
    ensures var q := RecoveryStarted(p);
      Closing(q).None? || Closing(q) == Closing(p) || Has(TableOf(p.generations), Closing(q).value, Primary)
  {
    PrimaryFound(p.generations);
    hide DistinctIds, TableOf, Has, PrimaryId;
  }

  lemma ClosingContinues(p: Pool, e: Event)
    requires DistinctIds(p.generations)
    ensures var q := Next(p, e);
      Closing(q).None? || Closing(q) == Closing(p) || Has(TableOf(p.generations), Closing(q).value, Primary)
  {
    hide DistinctIds, TableOf, Has, Closing, RecoveryStarted;
    if e.ERecoveryStarted? {
      ClosingStarts(p);
    } else {
      hide Next;
      ClosingStays(p, e);
    }
  }

  ghost predicate Whole(p: Pool) {
    Steady(p) && Live(TableOf(p.generations), p)
  }

  lemma QuietLive(p: Pool, e: Event)
    requires Whole(p) && !Flips(e) && !Appends(p, e) && !p.disposed && Next(p, e).disposal == []
    ensures Live(TableAfter(p, e), Next(p, e))
  {
    var t, t', q := TableOf(p.generations), TableAfter(p, e), Next(p, e);
    StepContinues(p, e);
    BelowStep(p, e);
    LastsStep(p, e);
    ClosingContinues(p, e);
    forall id | id in q.closing && id !in p.closing
      ensures id < p.nextId && (id in t' ==> t'[id].status == Dead) { ClosingStep(p, e, id); }
    assert Apart(RunStandby(q), Gone(p, e)) && Apart(RecoveryStandby(q), Gone(p, e)) by { GoneApart(p, e); }
    hide Next, Sound, TableOf, TableAfter, DistinctIds, Live, Lasts, Continues, Gone, Below, Closing, Apart;
    LiveLasts(t, t', p, q, Gone(p, e));
  }

  lemma GoneApart(p: Pool, e: Event)
    requires Whole(p)
    ensures Apart(RunStandby(Next(p, e)), Gone(p, e)) && Apart(RecoveryStandby(Next(p, e)), Gone(p, e))
  {
    hide TableOf, DistinctIds, Without;
    if e.EHealthKnown? {} else { hide Next; }
  }

  lemma FlipEventLive(p: Pool, e: Event)
    requires Whole(p) && Flips(e) && !p.disposed
    ensures Live(TableAfter(p, e), Next(p, e))
  {
    hide TableOf, DistinctIds, Sound, Live, Flipped, Flip, FlippedTable, FlipEnds;
    if e.EFlipped? {
      FlippedTouches(p, e.now);
      if FlipReady(p) {
        FlipContinues(p, e.now);
        FlipLive(TableOf(p.generations), p, Flipped(p, e.now), Some(e.now + p.settings.drainTimeoutMs));
      } else {
        FlipIdle(p, e.now);
      }
    } else {
      ReplacementTouches(p);
      if Replacing(p) { ReplaceLive(TableOf(p.generations), p, ReplacementRegistered(p)); }
    }
  }

  lemma AppendEventLive(p: Pool, e: Event)
    requires Whole(p) && Appends(p, e) && !p.disposed
    ensures Live(TableAfter(p, e), Next(p, e))
  {
    hide TableOf, DistinctIds, Sound, Live;
    if e.ESpawned? {
      var g := Generation(p.nextId, e.handle.value, Starting, p.inFlight.value.fingerprint, None);
      AppendLive(TableOf(p.generations), g, p, Next(p, e));
    } else {
      var g := Generation(p.nextId, p.recovery.value.endpoint, Starting, e.fingerprint, None);
      AppendLive(TableOf(p.generations), g, p, Next(p, e));
    }
  }

  lemma DisposedLive(t: Table, p: Pool)
    requires p.disposed
    ensures Live(t, p)
  {
  }

  lemma StepWhole(p: Pool, e: Event)
    requires Whole(p)
    ensures Whole(Next(p, e))
  {
    StepSteady(p, e);
    StepBecomes(p, e);
    assert p.disposal != [] ==> p.disposed;
    hide Next, TableOf, TableAfter, Sound, DistinctIds, Live, Appends;
    if Next(p, e).disposed {
      DisposedLive(TableOf(Next(p, e).generations), Next(p, e));
    } else {
      StaysUndisposed(p, e);
      if Flips(e) { FlipEventLive(p, e); } else if Appends(p, e) { AppendEventLive(p, e); } else { QuietLive(p, e); }
    }
  }

  lemma ConfigStays(p: Pool, e: Event)
    requires !Flips(e)
    ensures Next(p, e).config == p.config
  {
    if OfRun(e) {
      RunRolls(p, e);
      hide Next;
    } else {
      hide PollReturned, RetireStarted, RouteRequest, ForwardEvent, Without, AddOwner, Merge, Ids, PrimaryId;
      match e
      case EPollReturned(id, remaining, now) => PollTouches(p, id, remaining, now);
      case EAbortsDone(id) => RetireTouches(p.(aborts := p.aborts - multiset{id}), id, Forced);
      case EDisposeNext =>
        if p.disposal != [] { RetireTouches(p.(disposal := p.disposal[1..]), p.disposal[0], Shutdown); }
      case ERoute(path) => RouteTouchesOwners(p, path);
      case EForward(id, payload) => ForwardTouchesPins(p, id, payload);
      case _ =>
    }
  }

  lemma PointedPoints(config: Config, endpoint: Endpoint)
    ensures Points(PointedAt(config, endpoint), endpoint)
  {
    var q := PointedAt(config, endpoint);
    forall w | w in q.workspaces && !w.remote ensures w.endpoint == endpoint {
      var i :| 0 <= i < |q.workspaces| && q.workspaces[i] == w;
    }
  }

  /** Where the config points after an event: at the standby a flip promotes, wherever it is. */
  lemma ConfigStep(p: Pool, e: Event)
    ensures e.EFlipped? && FlipReady(p) ==> Points(Next(p, e).config, p.inFlight.value.standby.endpoint)
    ensures e.EReplacementRegistered? && Replacing(p) ==> Points(Next(p, e).config, p.recovery.value.replacement.endpoint)
    ensures !(e.EFlipped? && FlipReady(p)) && !(e.EReplacementRegistered? && Replacing(p)) ==> Next(p, e).config == p.config
  {
    hide PointedAt, Points, Flipped, FlippedList, Assign, AddOwner;
    if !Flips(e) {
      ConfigStays(p, e);
      hide Next;
    } else if e.EFlipped? {
      if FlipReady(p) {
        FlippedOutcome(p, e.now);
        PointedPoints(p.config, p.inFlight.value.standby.endpoint);
      } else {
        FlipIdle(p, e.now);
      }
    } else if Replacing(p) {
      PointedPoints(p.config, p.recovery.value.replacement.endpoint);
    }
  }

  /** A guarded promotion leaves the promoted engine alone in service. */
  lemma PromotedAlone(p: Pool, e: Event)
    requires Steady(p) && Guarded(p, e) && Promoted(p, e) != {}
    ensures Those(TableOf(Next(p, e).generations), Primary) == Promoted(p, e)
  {
    hide Next, Count, Guarded, Promoted, Removed, Sound, TableAfter, Those;
    StepKnown(p, e);
    PrimariesCount(p, e);
    PromotedApart(p, e);
  }

  lemma StepKnown(p: Pool, e: Event)
    requires Steady(p)
    ensures Those(TableOf(Next(p, e).generations), Primary) ==
            Those(TableOf(p.generations), Primary) + Promoted(p, e) - Removed(p, e)
  {
    StepBecomes(p, e);
    PrimariesStep(p, e);
  }

  /** The endpoint a handle remembers is that of its entry in the list, whatever the event. */
  lemma EndpointsStay(p: Pool, e: Event, id: Id)
    requires Steady(p) && id in TableOf(p.generations) && id in TableAfter(p, e)
    ensures TableAfter(p, e)[id].endpoint == TableOf(p.generations)[id].endpoint
  {
    hide TableOf, DistinctIds;
  }

  /** Whoever serves after a guarded event is where the config points then. */
  lemma ServesWhereConfig(p: Pool, e: Event, id: Id)
    requires Whole(p) && Guarded(p, e) && !p.disposed && Follows(p)
    requires id in Those(TableAfter(p, e), Primary) && TableAfter(p, e) == TableOf(Next(p, e).generations)
    ensures Points(Next(p, e).config, TableAfter(p, e)[id].endpoint)
  {
    ConfigStep(p, e);
    StepKnown(p, e);
    if Promoted(p, e) != {} { PromotedAlone(p, e); }
    hide Next, TableOf, TableAfter, DistinctIds, Guarded, Points;
    EndpointsStay(p, e, id);
  }

  lemma StepFollows(p: Pool, e: Event)
    requires Whole(p) && Guarded(p, e) && (p.disposed || Follows(p))
    ensures Next(p, e).disposed || Follows(Next(p, e))
  {
    var q := Next(p, e);
    StepBecomes(p, e);
    assert p.disposal != [] ==> p.disposed;
    hide Next, TableOf, TableAfter, Sound, DistinctIds, Live, Guarded, Points;
    if !q.disposed {
      StaysUndisposed(p, e);
      forall id | Has(TableOf(q.generations), id, Primary) ensures Points(q.config, TableOf(q.generations)[id].endpoint) {
        assert id in Those(TableAfter(p, e), Primary);
        ServesWhereConfig(p, e, id);
      }
    }
  }

  /** Without an overlap every promotion is guarded. */
  lemma InvGuarded(p: Pool, e: Event)
    requires Inv(p) && Serial(p)
    ensures Guarded(p, e)
  {
    forall g | g in p.generations && g.status == Primary ensures Has(TableOf(p.generations), g.id, Primary) { Listed(p, g); }
    hide TableOf, DistinctIds, Roles, Owners, Drained, ActiveOwned, Ticks, Disposal;
  }

  lemma {:induction false} SerialGuarded(p: Pool, events: seq<Event>)
    requires Inv(p) && SerialRun(p, events)
    ensures GuardedRun(p, events)
    decreases |events|
  {
    if events != [] {
      InvGuarded(p, events[0]);
      StepKeeps(p, events[0]);
      hide Inv, Serial, Fresh, Next, Guarded;
      SerialGuarded(Next(p, events[0]), events[1..]);
    }
  }

  lemma {:induction false} RunFollows(p: Pool, events: seq<Event>)
    requires Whole(p) && GuardedRun(p, events) && (p.disposed || Follows(p))
    ensures Whole(After(p, events)) && (After(p, events).disposed || Follows(After(p, events)))
    decreases |events|
  {
    if events != [] {
      StepWhole(p, events[0]);
      StepFollows(p, events[0]);
      hide Whole, Next, Guarded, Follows;
      RunFollows(Next(p, events[0]), events[1..]);
    }
  }

  lemma AdoptedWhole(settings: Settings, config: Config, endpoint: Endpoint, fingerprint: string, now: int)
    ensures var p := Adopted(settings, config, endpoint, fingerprint, now);
      && Whole(p) && Count(p.generations, Primary) == 1 && (Points(config, endpoint) ==> Follows(p))
  {
    var p := Adopted(settings, config, endpoint, fingerprint, now);
    AdoptedSteady(settings, config, endpoint, fingerprint, now);
    AdoptedInv(settings, config, endpoint, fingerprint, now);
    assert p.generations[1..] == [];
  }

  /** In every run from startup whose promotions are guarded, whatever else overlaps: exactly
      one engine is primary while one serves, and none otherwise; and until a disposal
      begins, a config that pointed at the first engine points at the current primary. */
  lemma OnePrimary(settings: Settings, config: Config, endpoint: Endpoint, fingerprint: string, now: int,
                   events: seq<Event>)
    requires GuardedRun(Adopted(settings, config, endpoint, fingerprint, now), events)
    ensures var start := Adopted(settings, config, endpoint, fingerprint, now);
      var p := After(start, events);
      && Count(p.generations, Primary) == Number(Serving(start, events, true))
      && (Points(config, endpoint) && !p.disposed ==>
            forall g <- p.generations | g.status == Primary :: Points(p.config, g.endpoint))
  {
    var start := Adopted(settings, config, endpoint, fingerprint, now);
    AdoptedWhole(settings, config, endpoint, fingerprint, now);
    RunServing(start, events, true);
    hide Adopted, GuardedRun, After, Count, Serving, Sound, Live, Points;
    var p := After(start, events);
    if Points(config, endpoint) && !p.disposed {
      RunFollows(start, events);
      forall g | g in p.generations && g.status == Primary ensures Points(p.config, g.endpoint) {
        var i :| 0 <= i < |p.generations| && p.generations[i] == g;
        TableMember(p.generations, i);
      }
    }
  }

  /** In every run from startup, whatever overlaps: at most one engine drains; an engine
      starts only as the standby of the rollover or of the recovery in flight; and at most
      one engine is ever primary exactly when every promotion is guarded. */
  lemma OneOfEach(settings: Settings, config: Config, endpoint: Endpoint, fingerprint: string, now: int,
                  events: seq<Event>)
    ensures var start := Adopted(settings, config, endpoint, fingerprint, now);
      var p := After(start, events);
      && Count(p.generations, Draining) <= 1
      && Count(p.generations, Starting) <= Number(RunStandby(p).Some?) + Number(RecoveryStandby(p).Some?)
      && (AlwaysOne(start, events) <==> GuardedRun(start, events))
  {
    var start := Adopted(settings, config, endpoint, fingerprint, now);
    AdoptedWhole(settings, config, endpoint, fingerprint, now);
    RunSteady(start, events);
    AlwaysOneIff(start, events);
    var p := After(start, events);
    hide Adopted, GuardedRun, AlwaysOne, After, Count, TableOf;
    CountTable(p.generations, Draining);
    CountThose(p.generations, Starting);
    hide DistinctIds;
    Starters(TableOf(p.generations), p);
  }

  lemma Starters(t: Table, p: Pool)
    requires Sound(t, p)
    ensures |Those(t, Starting)| <= Number(RunStandby(p).Some?) + Number(RecoveryStandby(p).Some?)
  {
    var run := if RunStandby(p).Some? then {RunStandby(p).value.id} else {};
    var recovery := if RecoveryStandby(p).Some? then {RecoveryStandby(p).value.id} else {};
    assert Those(t, Starting) <= run + recovery;
    Subset(Those(t, Starting), run + recovery);
  }
}
