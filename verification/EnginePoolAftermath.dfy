/** What is left of the engine pool when a disposal is through: everything in line retired,
    and the close of every retired engine come back. */
module EnginePoolAftermath {
  import opened Wrappers
  import opened EnginePoolFrames
  import opened EnginePoolModel
  import opened EnginePoolInvariants
  import opened EnginePoolLifecycle
  import opened EnginePoolTheorems
  import opened EnginePoolDrains
  import opened EnginePoolOverlaps
  import opened EnginePoolDisposal

  // ------------------------------------------------------- what is being closed

  ghost predicate NotDead(t: Table, id: Id) {
    id in t && t[id].status != Dead
  }

  ghost function Joined(p: Pool, id: Id): set<Id> {
    if NotDead(TableOf(p.generations), id) then p.closing.Keys + {id} else p.closing.Keys
  }

  /** The engines being closed after an event. */
  ghost function ClosingAfter(p: Pool, e: Event): set<Id> {
    match e
    case EPollReturned(id, remaining, _) => if id in p.polls && remaining == {} then Joined(p, id) else p.closing.Keys
    case EAbortsDone(id) => if id in p.aborts then Joined(p, id) else p.closing.Keys
    case EDisposeNext => if p.disposal != [] then Joined(p, p.disposal[0]) else p.closing.Keys
    case EClosed(id) => p.closing.Keys - {id}
    case _ => p.closing.Keys
  }

  lemma RetireJoins(p: Pool, id: Id, cause: Cause)
    requires DistinctIds(p.generations)
    ensures RetireStarted(p, id, cause).closing.Keys == Joined(p, id)
  {
    TableFinds(p.generations, id);
    hide DistinctIds, TableOf, Assign, DropOwner;
  }

  lemma PollJoins(p: Pool, id: Id, remaining: set<string>, now: int)
    requires DistinctIds(p.generations)
    ensures PollReturned(p, id, remaining, now).closing.Keys == ClosingAfter(p, EPollReturned(id, remaining, now))
  {
    hide UpdateActiveSessions, RetireStarted, PastDeadline, DistinctIds, TableOf;
    if id in p.polls {
      var q := p.(polls := p.polls - multiset{id});
      UpdateTouches(q, id, remaining);
      RetireJoins(UpdateActiveSessions(q, id, remaining), id, Idle);
    }
  }

  lemma ClosedLeaves(p: Pool, id: Id)
    ensures Closed(p, id).closing.Keys == p.closing.Keys - {id}
  {
    hide Without, Merge;
  }

  lemma ClosingStep(p: Pool, e: Event)
    requires DistinctIds(p.generations)
    ensures Next(p, e).closing.Keys == ClosingAfter(p, e)
  {
    if OfRun(e) {
      RunRolls(p, e);
      hide Next, Joined;
    } else {
      hide PollReturned, RetireStarted, Flipped, ReplacementRegistered, RouteRequest, ForwardEvent, Closed, Without,
           AddOwner, PrimaryId, Ids, DistinctIds, TableOf, StatusOf, Joined;
      match e
      case EPollReturned(id, remaining, now) => PollJoins(p, id, remaining, now);
      case EAbortsDone(id) => AbortJoins(p, id);
      case EDisposeNext => DisposeJoins(p);
      case EClosed(id) => ClosedLeaves(p, id);
      case EFlipped(now) => FlippedTouches(p, now);
      case EReplacementRegistered => ReplacementTouches(p);
      case ERoute(path) => RouteTouchesOwners(p, path);
      case EForward(id, payload) => ForwardTouchesPins(p, id, payload);
      case _ =>
    }
  }

  lemma AbortJoins(p: Pool, id: Id)
    requires DistinctIds(p.generations)
    ensures AbortsDone(p, id).closing.Keys == ClosingAfter(p, EAbortsDone(id))
  {
    RetireJoins(p.(aborts := p.aborts - multiset{id}), id, Forced);
    hide DistinctIds, TableOf, RetireStarted;
  }

  lemma DisposeJoins(p: Pool)
    requires DistinctIds(p.generations)
    ensures DisposeNext(p).closing.Keys == ClosingAfter(p, EDisposeNext)
  {
    if p.disposal != [] { RetireJoins(p.(disposal := p.disposal[1..]), p.disposal[0], Shutdown); }
    hide DistinctIds, TableOf, RetireStarted;
  }

  // ------------------------------------------- what every run keeps of the list

  /** Every dead engine of the list is being closed. */
  ghost predicate DeadClose(t: Table, closing: set<Id>) {
    forall id <- t | t[id].status == Dead :: id in closing
  }

  /** Every engine of the list is being closed or in line to be retired. */
  ghost predicate Bound(t: Table, closing: set<Id>, disposal: seq<Id>) {
    forall id <- t :: id in closing || id in disposal
  }

  /** Nothing in flight will still add an engine to the list of a disposed pool: no rollover
      prepares, probes or spawns, and a recovery has its replacement listed. */
  predicate AddsNone(p: Pool) {
    !Undecided(p.inFlight) && (p.recovery.Some? ==> Replacing(p))
  }

  lemma DeadStep(p: Pool, e: Event)
    requires Steady(p) && DeadClose(TableOf(p.generations), p.closing.Keys)
    ensures DeadClose(TableAfter(p, e), ClosingAfter(p, e))
  {
    hide TableOf, DistinctIds;
  }

  lemma BoundStep(p: Pool, e: Event, disposal: seq<Id>)
    requires Steady(p) && !Appends(p, e)
    requires DeadClose(TableOf(p.generations), p.closing.Keys)
    requires Bound(TableOf(p.generations), p.closing.Keys, p.disposal)
    requires forall id <- p.disposal :: id in disposal || (e.EDisposeNext? && id == p.disposal[0])
    ensures Bound(TableAfter(p, e), ClosingAfter(p, e), disposal)
  {
    hide TableOf, DistinctIds;
  }

  /** A disposal is on its way: every engine of the list will be closed, and none comes. */
  ghost predicate Closing(p: Pool) {
    && p.disposed && AddsNone(p)
    && DeadClose(TableOf(p.generations), p.closing.Keys)
    && Bound(TableOf(p.generations), p.closing.Keys, p.disposal)
  }

  lemma ClosingStays(p: Pool, e: Event)
    requires Steady(p) && Closing(p)
    ensures Closing(Next(p, e))
  {
    var q := Next(p, e);
    StepBecomes(p, e);
    ClosingStep(p, e);
    DisposedPhases(p, e);
    DisposedRecovery(p, e);
    assert !Appends(p, e);
    hide Next, Sound, DistinctIds, TableOf, TableAfter, ClosingAfter, DeadClose, Bound, Undecided, Appends;
    forall id <- p.disposal ensures id in q.disposal || (e.EDisposeNext? && id == p.disposal[0]) {
      var i :| 0 <= i < |p.disposal| && p.disposal[i] == id;
      if e.EDisposeNext? {
        assert p.disposal == [p.disposal[0]] + p.disposal[1..];
      } else {
        assert q.disposal[i] == id;
      }
    }
    DeadStep(p, e);
    BoundStep(p, e, q.disposal);
  }

  lemma {:induction false} RunCloses(p: Pool, events: seq<Event>)
    requires Steady(p) && Closing(p)
    ensures Closing(After(p, events)) && Steady(After(p, events))
    decreases |events|
  {
    if events != [] {
      StepSteady(p, events[0]);
      ClosingStays(p, events[0]);
      hide Steady, Closing, Next;
      RunCloses(Next(p, events[0]), events[1..]);
    }
  }

  /** Once everything in line is retired and every close is back, the list is empty. */
  ghost predicate Empties(p: Pool) {
    forall events ::
      After(p, events).disposal == [] && After(p, events).closing == map[] ==> After(p, events).generations == []
  }

  lemma ClosedAll(p: Pool)
    requires Steady(p) && Closing(p) && p.disposal == [] && p.closing == map[]
    ensures p.generations == []
  {
    hide TableOf;
    if p.generations != [] {
      TableMember(p.generations, 0);
      assert false;
    }
  }

  lemma ClosingEmpties(p: Pool)
    requires Steady(p) && Closing(p)
    ensures Empties(p)
  {
    hide Steady, Closing;
    forall events | After(p, events).disposal == [] && After(p, events).closing == map[]
      ensures After(p, events).generations == []
    {
      RunCloses(p, events);
      ClosedAll(After(p, events));
    }
  }

  // ------------------------------------------------- what comes when all is closed

  /** A disposal is on its way, and something in flight will still add an engine. */
  ghost predicate Leaking(p: Pool) {
    Steady(p) && Asks(p.inFlight) && p.disposed && !AddsNone(p)
  }

  /** With the list empty, whatever still adds an engine may put it in service for good. */
  lemma EmptyServes(p: Pool)
    requires Leaking(p) && p.disposal == [] && p.closing == map[] && p.generations == []
    ensures MayServe(p, true)
  {
    NobodyFound(p);
    hide Steady, MayServe, TableOf, Find;
    if Undecided(p.inFlight) {
      RunServes(p, true);
    } else {
      RecoveryServes(p, true);
    }
  }

  lemma EndServes(p: Pool)
    requires Leaking(p) && p.disposal == [] && p.closing == map[]
    ensures MayServe(p, true)
  {
    var q := Next(p, EDisposeEnded);
    StepSteady(p, EDisposeEnded);
    assert q == p.(generations := []);
    assert AddsNone(q) == AddsNone(p);
    hide Steady, MayServe, Asks, AddsNone, Next;
    EmptyServes(q);
    ServesLater(p, EDisposeEnded, true);
  }

  lemma ClosedStill(p: Pool, id: Id)
    requires p.disposed && id in p.closing && !AddsNone(p)
    ensures var q := Closed(p, id);
      q.disposed && !AddsNone(q) && q.disposal == p.disposal && q.closing == p.closing - {id}
  {
    hide Without, Merge;
  }

  /** The closes come back one by one. */
  lemma {:induction false} ClosesServe(p: Pool)
    requires Leaking(p) && p.disposal == []
    ensures MayServe(p, true)
    decreases |p.closing.Keys|
  {
    if p.closing == map[] {
      EndServes(p);
    } else {
      var id :| id in p.closing;
      StepSteady(p, EClosed(id));
      StepAsks(p, EClosed(id));
      ClosedStill(p, id);
      assert Next(p, EClosed(id)) == Closed(p, id);
      hide Steady, MayServe, Asks, AddsNone, Next, Closed;
      assert Closed(p, id).closing.Keys == p.closing.Keys - {id};
      ClosesServe(Closed(p, id));
      ServesLater(p, EClosed(id), true);
    }
  }

  lemma {:induction false} LeakServes(p: Pool)
    requires Leaking(p)
    ensures MayServe(p, true)
    decreases |p.disposal|
  {
    hide MayServe, Steady, Asks;
    if p.disposal == [] {
      ClosesServe(p);
    } else {
      RetiresNext(p);
      StepSteady(p, EDisposeNext);
      StepAsks(p, EDisposeNext);
      DisposedRecovery(p, EDisposeNext);
      assert Next(p, EDisposeNext) == DisposeNext(p);
      hide Next, DisposeNext;
      LeakServes(DisposeNext(p));
      ServesLater(p, EDisposeNext, true);
    }
  }

  lemma ServesLasting(p: Pool)
    requires MayServe(p, true)
    ensures !Empties(p)
  {
    var events :| ServesLast(After(p, events), true);
    hide After;
    EmptyBecomes();
  }

  // ---------------------------------------------------------------- over runs

  lemma {:induction false} RunDead(p: Pool, events: seq<Event>)
    requires Steady(p) && DeadClose(TableOf(p.generations), p.closing.Keys)
    ensures DeadClose(TableOf(After(p, events).generations), After(p, events).closing.Keys)
    decreases |events|
  {
    if events != [] {
      StepSteady(p, events[0]);
      StepBecomes(p, events[0]);
      ClosingStep(p, events[0]);
      DeadStep(p, events[0]);
      hide Steady, Next, DeadClose, TableOf, TableAfter, ClosingAfter;
      RunDead(Next(p, events[0]), events[1..]);
    }
  }

  lemma DisposalBinds(p: Pool)
    requires DeadClose(TableOf(p.generations), p.closing.Keys) && AddsNone(p)
    ensures Closing(DisposeStarted(p))
  {
    DisposalCovers(p);
    hide TableOf, Ids;
  }

  /** In every run from startup, whatever overlaps: once a disposal has retired everything in
      line and every close has come back, the list is empty, whatever else happens, exactly when
      no rollover that still prepares, probes or spawns and no recovery that has yet to list
      its replacement was in flight as the disposal began. Otherwise some run ends with an
      engine in service that nothing is left to retire or close. */
  lemma DisposalEmptiesIff(settings: Settings, config: Config, endpoint: Endpoint, fingerprint: string, now: int,
                           events: seq<Event>)
    ensures var p := After(Adopted(settings, config, endpoint, fingerprint, now), events);
      && (Empties(Next(p, EDisposeStarted)) <==> AddsNone(p))
      && (!AddsNone(p) ==> MayServe(Next(p, EDisposeStarted), true))
  {
    var start := Adopted(settings, config, endpoint, fingerprint, now);
    AdoptedWhole(settings, config, endpoint, fingerprint, now);
    RunWhole(start, events);
    RunDead(start, events);
    var p := After(start, events);
    hide Adopted, After, MayServe, Empties, Sound, Live, TableOf, DisposeStarted, DeadClose;
    StepSteady(p, EDisposeStarted);
    StepAsks(p, EDisposeStarted);
    assert Next(p, EDisposeStarted) == DisposeStarted(p);
    hide Next;
    DisposalCovers(p);
    if AddsNone(p) {
      DisposalBinds(p);
      ClosingEmpties(DisposeStarted(p));
    } else {
      StartLeaks(p);
      LeakServes(DisposeStarted(p));
      ServesLasting(DisposeStarted(p));
    }
  }

  lemma StartLeaks(p: Pool)
    requires !AddsNone(p)
    ensures DisposeStarted(p).disposed && !AddsNone(DisposeStarted(p))
  {
    hide Ids;
  }
}
