/** What a disposal of the engine pool achieves, whatever it overlaps. */
module EnginePoolDisposal {
  import opened Wrappers
  import opened EnginePoolFrames
  import opened EnginePoolModel
  import opened EnginePoolInvariants
  import opened EnginePoolLifecycle
  import opened EnginePoolTheorems
  import opened EnginePoolDrains
  import opened EnginePoolOverlaps

  // ------------------------------------------------------------ what can still happen

  predicate Undecided(run: Option<Run>) {
    run.Some? && (run.value.Preparing? || run.value.ProbingBusy? || run.value.Spawning?)
  }

  /** The rollover in flight may still put an engine in service: it has not spawned yet, or
      its standby is in the list. */
  ghost predicate RunAble(p: Pool) {
    Undecided(p.inFlight) || (RunStandby(p).Some? && RunStandby(p).value.id in TableOf(p.generations))
  }

  /** ... and so may the recovery in flight. */
  ghost predicate RecoveryAble(p: Pool) {
    p.recovery.Some? && (Replacing(p) ==> p.recovery.value.replacement.id in TableOf(p.generations))
  }

  /** Every engine that serves is still to be retired, and nothing can put another in service. */
  ghost predicate Winding(p: Pool) {
    && p.disposed && !RunAble(p) && !RecoveryAble(p)
    && forall id <- Those(TableOf(p.generations), Primary) :: id in p.disposal
  }

  lemma DisposedPhases(p: Pool, e: Event)
    requires p.disposed && !Undecided(p.inFlight)
    ensures !Undecided(Next(p, e).inFlight)
  {
    if Moving(e) {
      hide Decide, PrimaryId, Find, Merge;
    } else {
      OtherPhases(p, e);
    }
  }

  lemma OtherPhases(p: Pool, e: Event)
    requires p.disposed && !Undecided(p.inFlight) && !Moving(e)
    ensures !Undecided(Next(p, e).inFlight)
  {
    hide PollReturned, RetireStarted, Flipped, Flip, RouteRequest, ForwardEvent, Without, AddOwner, Merge, Ids,
         PrimaryId, Fingerprinted;
    match e
    case EPollReturned(id, remaining, now) => PollTouches(p, id, remaining, now);
    case EAbortsDone(id) => RetireTouches(p.(aborts := p.aborts - multiset{id}), id, Forced);
    case EDisposeNext =>
      if p.disposal != [] { RetireTouches(p.(disposal := p.disposal[1..]), p.disposal[0], Shutdown); }
    case EFlipped(now) => if FlipReady(p) { FlipSettles(p, now); } else { FlipIdle(p, now); }
    case EReplacementRegistered => ReplacementTouches(p);
    case ERoute(path) => RouteTouchesOwners(p, path);
    case EForward(id, payload) => ForwardTouchesPins(p, id, payload);
    case _ =>
  }

  /** A disposed pool begins no recovery, and loses none but at its end. */
  lemma DisposedRecovery(p: Pool, e: Event)
    requires p.disposed
    ensures var q := Next(p, e);
      && q.disposed
      && (p.recovery.None? ==> q.recovery.None?)
      && (Replacing(p) ==> q.recovery.None? || q.recovery == p.recovery)
      && (p.disposal != [] && e.EDisposeNext? ==> q.disposal == p.disposal[1..])
      && (!e.EDisposeNext? ==> p.disposal <= q.disposal)
  {
    if OfRun(e) {
      RunRolls(p, e);
      hide Next;
    } else {
      hide PollReturned, RetireStarted, Flipped, Flip, RouteRequest, ForwardEvent, Without, AddOwner, Merge, Ids,
           PrimaryId;
      match e
      case EPollReturned(id, remaining, now) => PollTouches(p, id, remaining, now);
      case EAbortsDone(id) => RetireTouches(p.(aborts := p.aborts - multiset{id}), id, Forced);
      case EDisposeNext =>
        if p.disposal != [] { RetireTouches(p.(disposal := p.disposal[1..]), p.disposal[0], Shutdown); }
      case EFlipped(now) => FlippedTouches(p, now);
      case ERoute(path) => RouteTouchesOwners(p, path);
      case EForward(id, payload) => ForwardTouchesPins(p, id, payload);
      case _ =>
    }
  }

  lemma NothingAdded(p: Pool, e: Event)
    requires Steady(p) && Winding(p)
    ensures Promoted(p, e) == {} && !Appends(p, e)
    ensures TableAfter(p, e).Keys <= TableOf(p.generations).Keys
  {
    hide TableOf, DistinctIds, Those;
  }

  lemma StandbyStays(p: Pool, e: Event)
    requires Steady(p) && !Appends(p, e)
    ensures RunStandby(Next(p, e)).None? || RunStandby(Next(p, e)) == RunStandby(p)
  {
    if e.EFlipped? {
      hide Flipped, Sound, DistinctIds, TableOf;
      if FlipReady(p) { FlipSettles(p, e.now); } else { FlipIdle(p, e.now); }
    } else if e.EReplacementRegistered? {
      hide Sound, DistinctIds, TableOf, Flip;
      ReplacementTouches(p);
    } else {
      StepContinues(p, e);
      hide Next, TableOf, TableAfter, Sound, DistinctIds;
    }
  }

  lemma WindingRuns(p: Pool, e: Event)
    requires Steady(p) && Winding(p)
    ensures !RunAble(Next(p, e)) && !RecoveryAble(Next(p, e))
  {
    var q := Next(p, e);
    NothingAdded(p, e);
    StandbyStays(p, e);
    DisposedPhases(p, e);
    DisposedRecovery(p, e);
    StepBecomes(p, e);
    hide Next, TableAfter, Sound, DistinctIds, TableOf, Those;
    assert TableOf(q.generations) == TableAfter(p, e);
  }

  lemma WindingStays(p: Pool, e: Event)
    requires Steady(p) && Winding(p)
    ensures Winding(Next(p, e))
  {
    var t, q := TableOf(p.generations), Next(p, e);
    NothingAdded(p, e);
    WindingRuns(p, e);
    DisposedRecovery(p, e);
    StepKnown(p, e);
    hide Next, Sound, DistinctIds, TableOf, RunAble, RecoveryAble, Promoted, Those;
    forall id | id in Those(TableOf(q.generations), Primary) ensures id in q.disposal {
      assert id in Those(t, Primary) && id !in Removed(p, e);
      if e.EDisposeNext? {
        assert p.disposal == [p.disposal[0]] + p.disposal[1..];
      } else {
        assert p.disposal <= q.disposal;
        var i :| 0 <= i < |p.disposal| && p.disposal[i] == id;
        assert q.disposal[i] == id;
      }
    }
  }

  lemma {:induction false} RunWinds(p: Pool, events: seq<Event>)
    requires Steady(p) && Winding(p)
    ensures Winding(After(p, events)) && Steady(After(p, events))
    decreases |events|
  {
    if events != [] {
      StepSteady(p, events[0]);
      WindingStays(p, events[0]);
      hide Steady, Winding, Next;
      RunWinds(Next(p, events[0]), events[1..]);
    }
  }

  // ---------------------------------------------------------- nothing is left

  /** Nothing is in flight, and whatever is not dead is still to be retired. */
  predicate Spent(run: Option<Run>) {
    run.None? || run.value.Settled? || run.value.AwaitingDrain? || run.value.Reloading? || run.value.ClosingStandby?
  }

  ghost predicate Retiring(p: Pool) {
    && p.disposed && Spent(p.inFlight) && p.recovery.None?
    && forall id <- TableOf(p.generations) :: TableOf(p.generations)[id].status == Dead || id in p.disposal
  }

  lemma SpentStays(p: Pool, e: Event)
    requires p.disposed && Spent(p.inFlight)
    ensures Spent(Next(p, e).inFlight)
  {
    if Moving(e) {
      hide Decide, PrimaryId, Find, Merge;
    } else {
      hide PollReturned, RetireStarted, Flipped, Flip, RouteRequest, ForwardEvent, Without, AddOwner, Merge, Ids,
           PrimaryId, Fingerprinted;
      match e
      case EPollReturned(id, remaining, now) => PollTouches(p, id, remaining, now);
      case EAbortsDone(id) => RetireTouches(p.(aborts := p.aborts - multiset{id}), id, Forced);
      case EDisposeNext =>
        if p.disposal != [] { RetireTouches(p.(disposal := p.disposal[1..]), p.disposal[0], Shutdown); }
      case EFlipped(now) => FlipIdle(p, now);
      case EReplacementRegistered => ReplacementTouches(p);
      case ERoute(path) => RouteTouchesOwners(p, path);
      case EForward(id, payload) => ForwardTouchesPins(p, id, payload);
      case _ =>
    }
  }

  lemma RetiringTable(p: Pool, e: Event)
    requires Steady(p) && Retiring(p)
    ensures forall id <- TableAfter(p, e) ::
      && id in TableOf(p.generations)
      && (TableAfter(p, e)[id].status == Dead || TableAfter(p, e)[id].status == TableOf(p.generations)[id].status)
      && (e.EDisposeNext? && p.disposal != [] && id == p.disposal[0] ==> TableAfter(p, e)[id].status == Dead)
  {
    hide TableOf, DistinctIds;
  }

  lemma RetiringStays(p: Pool, e: Event)
    requires Steady(p) && Retiring(p)
    ensures Retiring(Next(p, e))
  {
    var t, t', q := TableOf(p.generations), TableAfter(p, e), Next(p, e);
    SpentStays(p, e);
    DisposedRecovery(p, e);
    StepBecomes(p, e);
    RetiringTable(p, e);
    hide Next, Sound, DistinctIds, TableOf, TableAfter, Spent;
    forall id | id in TableOf(q.generations) ensures TableOf(q.generations)[id].status == Dead || id in q.disposal {
      if t'[id].status != Dead {
        assert id in p.disposal;
        if e.EDisposeNext? {
          assert p.disposal == [p.disposal[0]] + p.disposal[1..];
        } else {
          var i :| 0 <= i < |p.disposal| && p.disposal[i] == id;
          assert q.disposal[i] == id;
        }
      }
    }
  }

  lemma {:induction false} RunRetires(p: Pool, events: seq<Event>)
    requires Steady(p) && Retiring(p)
    ensures Retiring(After(p, events)) && Steady(After(p, events))
    decreases |events|
  {
    if events != [] {
      StepSteady(p, events[0]);
      RetiringStays(p, events[0]);
      hide Steady, Retiring, Next;
      RunRetires(Next(p, events[0]), events[1..]);
    }
  }

  lemma DisposeRetires(p: Pool)
    requires Steady(p) && Spent(p.inFlight) && p.recovery.None?
    ensures Retiring(DisposeStarted(p))
  {
    var t := TableOf(p.generations);
    TableKeys(p.generations);
    forall id | id in t ensures id in DisposeStarted(p).disposal {
      IdsCover(p.generations, t[id].status == Draining, t[id]);
    }
  }

  // ------------------------------------------------------ something may be left

  /** A run asks a prompt list only of a primary. */
  predicate Asks(run: Option<Run>) {
    run.Some? && run.value.ListingRequests? && run.value.surfaces > 0 ==> run.value.primary.Some?
  }

  lemma DecideAsks(p: Pool, request: Request, fingerprint: string, primary: Option<Id>, now: int)
    ensures Asks(Decide(p, request, fingerprint, primary, now).inFlight)
  {
    hide Find;
  }

  lemma MovingAsks(p: Pool, e: Event)
    requires Asks(p.inFlight) && Moving(e)
    ensures Asks(Next(p, e).inFlight)
  {
    hide Decide, PrimaryId, Find, Merge;
    match e
    case EPrepared(fingerprint, now) =>
      if p.inFlight.Some? && p.inFlight.value.Preparing? {
        DecideAsks(p, p.inFlight.value.request, fingerprint, PrimaryId(p.generations), now);
      }
    case EBusyKnown(_, now) =>
      if p.inFlight.Some? && p.inFlight.value.ProbingBusy? {
        DecideAsks(p, p.inFlight.value.request, p.inFlight.value.fingerprint, p.inFlight.value.primary, now);
      }
    case _ =>
  }

  /** The other segments of a rollover. */
  lemma PhaseAsks(p: Pool, e: Event)
    requires Asks(p.inFlight) && (e.EReloaded? || e.ESpawned? || e.EHealthKnown? || e.ESurfaceListed? || e.EFlipped?)
    ensures Asks(Next(p, e).inFlight)
  {
    hide Flipped, Without, AddOwner, Fingerprinted;
    if e.EFlipped? {
      if FlipReady(p) { FlipSettles(p, e.now); } else { FlipIdle(p, e.now); }
    }
  }

  lemma OtherAsks(p: Pool, e: Event)
    requires Asks(p.inFlight) && !OfRun(e) && !e.ESurfaceListed? && !e.EFlipped?
    ensures Asks(Next(p, e).inFlight)
  {
    hide PollReturned, RetireStarted, Flip, RouteRequest, ForwardEvent, Without, Merge, Ids, PrimaryId;
    match e
    case EPollReturned(id, remaining, now) => PollTouches(p, id, remaining, now);
    case EAbortsDone(id) => RetireTouches(p.(aborts := p.aborts - multiset{id}), id, Forced);
    case EDisposeNext =>
      if p.disposal != [] { RetireTouches(p.(disposal := p.disposal[1..]), p.disposal[0], Shutdown); }
    case EReplacementRegistered => ReplacementTouches(p);
    case ERoute(path) => RouteTouchesOwners(p, path);
    case EForward(id, payload) => ForwardTouchesPins(p, id, payload);
    case _ =>
  }

  lemma StepAsks(p: Pool, e: Event)
    requires Asks(p.inFlight)
    ensures Asks(Next(p, e).inFlight)
  {
    hide Next, Asks;
    if Moving(e) {
      MovingAsks(p, e);
    } else if OfRun(e) || e.ESurfaceListed? || e.EFlipped? {
      PhaseAsks(p, e);
    } else {
      OtherAsks(p, e);
    }
  }

  /** Some run from here ends with an engine in service and nothing left to retire; with
      nothing left to close either, if it is to last. */
  ghost predicate MayServe(p: Pool, lasting: bool) {
    exists events :: ServesLast(After(p, events), lasting)
  }

  ghost predicate ServesLast(p: Pool, lasting: bool) {
    p.disposal == [] && (lasting ==> p.closing == map[]) && Those(TableOf(p.generations), Primary) != {}
  }

  lemma ServesNow(p: Pool, lasting: bool)
    requires ServesLast(p, lasting)
    ensures MayServe(p, lasting)
  {
    assert After(p, []) == p;
  }

  lemma ServesLater(p: Pool, e: Event, lasting: bool)
    requires MayServe(Next(p, e), lasting)
    ensures MayServe(p, lasting)
  {
    hide Next, ServesLast;
    var events :| ServesLast(After(Next(p, e), events), lasting);
    assert ([e] + events)[1..] == events;
    assert After(p, [e] + events) == After(Next(p, e), events);
  }

  ghost predicate Standing(p: Pool, lasting: bool) {
    Steady(p) && Asks(p.inFlight) && p.disposal == [] && (lasting ==> p.closing == map[])
  }

  lemma PromotedServes(p: Pool, e: Event, lasting: bool)
    requires Standing(p, lasting) && Flips(e) && Promoted(p, e) != {}
    ensures MayServe(p, lasting)
  {
    StepKnown(p, e);
    PromotedApart(p, e);
    assert Next(p, e).disposal == [] && Next(p, e).closing == p.closing by {
      hide Flipped, Flip, Steady, TableOf;
      if e.EFlipped? { FlippedTouches(p, e.now); } else { ReplacementTouches(p); }
    }
    hide Next, Promoted, Removed, Steady, Those;
    ServesNow(Next(p, e), lasting);
    ServesLater(p, e, lasting);
  }

  /** A segment that moves the run along its way to the flip. */
  lemma {:induction false} ListingServes(p: Pool, lasting: bool)
    requires Standing(p, lasting) && p.inFlight.Some? && p.inFlight.value.ListingRequests?
    requires p.inFlight.value.standby.id in TableOf(p.generations)
    ensures MayServe(p, lasting)
    decreases p.inFlight.value.surfaces
  {
    var run := p.inFlight.value;
    if run.surfaces == 0 {
      PromotedServes(p, EFlipped(0), lasting);
    } else {
      var e := ESurfaceListed({}, {});
      var q := Next(p, e);
      assert q.generations == p.generations && q.disposal == [] && q.closing == p.closing;
      assert q.inFlight.Some? && q.inFlight.value.ListingRequests?
          && q.inFlight.value.standby == run.standby && q.inFlight.value.surfaces == run.surfaces - 1;
      StepSteady(p, e);
      StepAsks(p, e);
      hide Next, Steady, Asks, TableOf;
      ListingServes(q, lasting);
      ServesLater(p, e, lasting);
    }
  }

  /** An event after which the standing pool may serve. */
  lemma EventServes(p: Pool, e: Event, lasting: bool)
    requires Standing(p, lasting) && Next(p, e).disposal == [] && Next(p, e).closing == p.closing
    requires Standing(Next(p, e), lasting) ==> MayServe(Next(p, e), lasting)
    ensures MayServe(p, lasting)
  {
    StepSteady(p, e);
    StepAsks(p, e);
    hide Next, Steady, Asks, MayServe;
    ServesLater(p, e, lasting);
  }

  lemma SessionsServe(p: Pool, lasting: bool)
    requires Standing(p, lasting) && p.inFlight.Some? && p.inFlight.value.ListingSessions?
    requires p.inFlight.value.standby.id in TableOf(p.generations)
    ensures MayServe(p, lasting)
  {
    var q := Next(p, ESessionsListed({}));
    hide Steady, TableOf, MayServe;
    if Standing(q, lasting) { ListingServes(q, lasting); }
    EventServes(p, ESessionsListed({}), lasting);
  }

  lemma RegisteringServes(p: Pool, lasting: bool)
    requires Standing(p, lasting) && p.inFlight.Some? && p.inFlight.value.Registering?
    requires p.inFlight.value.standby.id in TableOf(p.generations)
    ensures MayServe(p, lasting)
  {
    var q := Next(p, ERegistered);
    hide Steady, TableOf, MayServe;
    if Standing(q, lasting) { SessionsServe(q, lasting); }
    EventServes(p, ERegistered, lasting);
  }

  lemma CheckingServes(p: Pool, lasting: bool)
    requires Standing(p, lasting) && p.inFlight.Some? && p.inFlight.value.CheckingHealth?
    requires p.inFlight.value.standby.id in TableOf(p.generations)
    ensures MayServe(p, lasting)
  {
    var q := Next(p, EHealthKnown(true));
    hide Steady, TableOf, MayServe;
    if Standing(q, lasting) { RegisteringServes(q, lasting); }
    EventServes(p, EHealthKnown(true), lasting);
  }

  lemma SpawningServes(p: Pool, lasting: bool)
    requires Standing(p, lasting) && AtSpawn(p)
    ensures MayServe(p, lasting)
  {
    var e := ESpawned(Some(p.config.endpoint));
    var q := Next(p, e);
    StepBecomes(p, e);
    assert p.nextId in TableOf(q.generations);
    hide Steady, TableOf, MayServe, TableAfter, DistinctIds;
    if Standing(q, lasting) { CheckingServes(q, lasting); }
    EventServes(p, e, lasting);
  }

  /** Late enough for the minimum interval to have passed. */
  function Late(p: Pool): int {
    p.lastSpawnAt + p.settings.minSpawnIntervalMs
  }

  lemma NobodyFound(p: Pool)
    requires DistinctIds(p.generations)
    requires forall id <- TableOf(p.generations) :: TableOf(p.generations)[id].status == Dead
    ensures Find(p.generations, Primary).None? && Find(p.generations, Draining).None?
  {
    PrimaryFound(p.generations);
    DrainingFound(p.generations);
    FoundInTable(p.generations, Primary);
    FoundInTable(p.generations, Draining);
  }

  lemma ProbingServes(p: Pool, lasting: bool)
    requires Standing(p, lasting) && p.inFlight.Some? && p.inFlight.value.ProbingBusy? && Find(p.generations, Draining).None?
    ensures MayServe(p, lasting)
  {
    var q := Next(p, EBusyKnown(true, Late(p)));
    assert AtSpawn(q);
    hide Steady, MayServe, Find, TableOf;
    if Standing(q, lasting) { SpawningServes(q, lasting); }
    EventServes(p, EBusyKnown(true, Late(p)), lasting);
  }

  lemma PreparingServes(p: Pool, lasting: bool)
    requires Standing(p, lasting) && p.inFlight.Some? && p.inFlight.value.Preparing?
    requires Find(p.generations, Draining).None? && Find(p.generations, Primary).None?
    ensures MayServe(p, lasting)
  {
    var q := Next(p, EPrepared("", Late(p)));
    assert AtSpawn(q) || (q.inFlight.Some? && q.inFlight.value.ProbingBusy?);
    assert q.generations == p.generations && q.disposal == [] && q.closing == p.closing by {
      PreparedMoves(p, "", Late(p));
    }
    hide Steady, MayServe, Find, TableOf, Next;
    if Standing(q, lasting) { if AtSpawn(q) { SpawningServes(q, lasting); } else { ProbingServes(q, lasting); } }
    EventServes(p, EPrepared("", Late(p)), lasting);
  }

  lemma CheckedServes(p: Pool, fingerprint: string, lasting: bool)
    requires Standing(p, lasting) && p.recovery.Some? && p.recovery.value.CheckingReplacement?
    ensures MayServe(p, lasting)
  {
    var e := EReplacementChecked(true, fingerprint);
    var q := Next(p, e);
    StepBecomes(p, e);
    assert p.nextId in TableOf(q.generations);
    hide Steady, TableOf, MayServe, TableAfter, DistinctIds;
    if Standing(q, lasting) { PromotedServes(q, EReplacementRegistered, lasting); }
    EventServes(p, e, lasting);
  }

  lemma ReplacingServes(p: Pool, lasting: bool)
    requires Standing(p, lasting) && p.recovery.Some? && p.recovery.value.SpawningReplacement?
    ensures MayServe(p, lasting)
  {
    var e := EReplacementSpawned(Some(p.config.endpoint));
    hide Steady, MayServe, TableOf;
    if Standing(Next(p, e), lasting) { CheckedServes(Next(p, e), "", lasting); }
    EventServes(p, e, lasting);
  }

  /** With nothing left to retire, an able rollover or recovery may serve. */
  lemma RecoveryServes(p: Pool, lasting: bool)
    requires Standing(p, lasting) && RecoveryAble(p)
    ensures MayServe(p, lasting)
  {
    assert p.disposal == [];
    hide Steady, MayServe, TableOf, Standing;
    match p.recovery.value
    case ClosingOld(_) =>
      var q := Next(p, EOldClosed(true));
      if Standing(q, lasting) { ReplacingServes(q, lasting); }
      OldClosedKeepsDisposal(p);
      EventServes(p, EOldClosed(true), lasting);
    case SpawningReplacement => ReplacingServes(p, lasting);
    case CheckingReplacement(_) => CheckedServes(p, "", lasting);
    case RegisteringReplacement(_) => PromotedServes(p, EReplacementRegistered, lasting);
  }

  lemma OldClosedKeepsDisposal(p: Pool)
    ensures OldClosed(p, true).disposal == p.disposal && OldClosed(p, true).closing == p.closing
  {
    hide Without;
  }

  lemma RunServes(p: Pool, lasting: bool)
    requires Standing(p, lasting) && RunAble(p)
    requires Undecided(p.inFlight) ==> AtSpawn(p) || (Find(p.generations, Draining).None? && Find(p.generations, Primary).None?)
    ensures MayServe(p, lasting)
  {
    hide Steady, MayServe, TableOf, Standing, Find;
    match p.inFlight.value
    case Preparing(_) => PreparingServes(p, lasting);
    case ProbingBusy(_, _, _) => ProbingServes(p, lasting);
    case Spawning(_, _) => SpawningServes(p, lasting);
    case CheckingHealth(_, _) => CheckingServes(p, lasting);
    case Registering(_, _) => RegisteringServes(p, lasting);
    case ListingSessions(_, _) => SessionsServe(p, lasting);
    case ListingRequests(_, _, _, _, _) => ListingServes(p, lasting);
  }

  /** A retirement of the disposal leaves the continuations and the list's ids alone. */
  lemma RetiresNext(p: Pool)
    requires p.disposal != []
    ensures var q := DisposeNext(p);
      && q.inFlight == p.inFlight && q.recovery == p.recovery && q.disposal == p.disposal[1..]
  {
    RetireTouches(p.(disposal := p.disposal[1..]), p.disposal[0], Shutdown);
    hide RetireStarted;
  }

  lemma RetiresOne(p: Pool)
    requires Steady(p) && p.disposal != []
    ensures var q := DisposeNext(p);
      Steady(q) && TableOf(q.generations) == RetiredTable(TableOf(p.generations), p.disposal[0])
  {
    DisposesNext(p);
    assert Numbered(p);
    hide Next, Numbered, Steady, TableOf, DisposeNext, DistinctIds, RetiredTable;
    StepBecomes(p, EDisposeNext);
    StepSteady(p, EDisposeNext);
  }

  lemma DisposesNext(p: Pool)
    ensures Next(p, EDisposeNext) == DisposeNext(p)
  {
    hide DisposeNext;
  }

  ghost predicate LeftOf(t: Table, disposal: seq<Id>) {
    forall id <- t :: t[id].status == Dead || id in disposal
  }

  lemma LessLeft(t: Table, disposal: seq<Id>)
    requires disposal != []
    ensures LeftOf(t, disposal) ==> LeftOf(RetiredTable(t, disposal[0]), disposal[1..])
    ensures RetiredTable(t, disposal[0]).Keys == t.Keys
    ensures forall id <- Those(t, Primary) | id !in disposal ::
      id in Those(RetiredTable(t, disposal[0]), Primary) && id !in disposal[1..]
  {
    assert disposal == [disposal[0]] + disposal[1..];
  }

  lemma SameAble(p: Pool, q: Pool)
    requires q.inFlight == p.inFlight && q.recovery == p.recovery
    requires TableOf(q.generations).Keys == TableOf(p.generations).Keys
    ensures RunAble(q) == RunAble(p) && RecoveryAble(q) == RecoveryAble(p)
  {
    hide TableOf, Standby, Undecided;
  }

  /** An able run or recovery, and before a run has decided nothing but what is in line. */
  ghost predicate Ready(p: Pool) {
    && Steady(p) && Asks(p.inFlight) && (RunAble(p) || RecoveryAble(p))
    && (Undecided(p.inFlight) ==> LeftOf(TableOf(p.generations), p.disposal))
  }

  lemma AbleNow(p: Pool)
    requires Ready(p) && p.disposal == []
    ensures MayServe(p, false)
  {
    if RunAble(p) {
      if Undecided(p.inFlight) { NobodyFound(p); }
      hide Steady, MayServe, TableOf, RunAble, Find;
      RunServes(p, false);
    } else {
      hide Steady, MayServe, TableOf, RecoveryAble;
      RecoveryServes(p, false);
    }
  }

  lemma StaysReady(p: Pool)
    requires Ready(p) && p.disposal != []
    ensures Ready(DisposeNext(p)) && DisposeNext(p).disposal == p.disposal[1..]
  {
    hide Steady, TableOf, LeftOf, RetiredTable, Those, RunAble, RecoveryAble, Undecided, Asks, DisposeNext;
    RetiresNext(p);
    RetiresOne(p);
    LessLeft(TableOf(p.generations), p.disposal);
    SameAble(p, DisposeNext(p));
  }

  /** The disposal retires what is left in line, and then the able run or recovery serves. */
  lemma {:induction false} ReadyServes(p: Pool)
    requires Ready(p)
    ensures MayServe(p, false)
    decreases |p.disposal|
  {
    hide Ready, MayServe, DisposeNext;
    if p.disposal == [] {
      AbleNow(p);
    } else {
      StaysReady(p);
      assert Next(p, EDisposeNext) == DisposeNext(p);
      hide Next;
      ReadyServes(DisposeNext(p));
      ServesLater(p, EDisposeNext, false);
    }
  }

  /** An engine in service that is not in line to be retired goes on serving. */
  lemma {:induction false} SparedServes(p: Pool, id: Id)
    requires Steady(p) && id in Those(TableOf(p.generations), Primary) && id !in p.disposal
    ensures MayServe(p, false)
    decreases |p.disposal|
  {
    hide Steady, TableOf, LeftOf, RetiredTable, Those;
    if p.disposal == [] {
      ServesNow(p, false);
    } else {
      hide MayServe;
      var q := DisposeNext(p);
      RetiresNext(p);
      RetiresOne(p);
      LessLeft(TableOf(p.generations), p.disposal);
      assert Next(p, EDisposeNext) == q;
      hide Next, DisposeNext;
      SparedServes(q, id);
      ServesLater(p, EDisposeNext, false);
    }
  }

  /** A disposal lines up every engine of the list. */
  lemma DisposalCovers(p: Pool)
    ensures var q := DisposeStarted(p);
      && q.inFlight == p.inFlight && q.recovery == p.recovery && q.generations == p.generations
      && LeftOf(TableOf(p.generations), q.disposal)
  {
    var t := TableOf(p.generations);
    TableKeys(p.generations);
    hide TableOf;
    forall id | id in t ensures id in DisposeStarted(p).disposal {
      IdsCover(p.generations, t[id].status == Draining, t[id]);
    }
  }

  lemma AbleMayServe(p: Pool)
    requires Steady(p) && Asks(p.inFlight) && (RunAble(p) || RecoveryAble(p))
    ensures MayServe(p, false)
  {
    hide Steady, TableOf, MayServe, LeftOf, Asks;
    var q := DisposeStarted(p);
    DisposalCovers(p);
    StepSteady(p, EDisposeStarted);
    assert Next(p, EDisposeStarted) == q;
    hide Next, DisposeStarted, Undecided;
    SameAble(p, q);
    hide RunAble, RecoveryAble;
    ReadyServes(q);
    ServesLater(p, EDisposeStarted, false);
  }

  /** A disposed pool may come to serve with nothing left to retire exactly when an engine
      in service is not in line to be retired, or the rollover or recovery in flight is
      still able to put one in service. */
  lemma DisposedServes(p: Pool)
    requires Steady(p) && Asks(p.inFlight) && p.disposed
    ensures MayServe(p, false) <==>
      || RunAble(p) || RecoveryAble(p)
      || exists id <- Those(TableOf(p.generations), Primary) :: id !in p.disposal
  {
    if RunAble(p) || RecoveryAble(p) {
      AbleMayServe(p);
    } else if id :| id in Those(TableOf(p.generations), Primary) && id !in p.disposal {
      SparedServes(p, id);
    } else {
      assert Winding(p);
      forall events ensures !ServesLast(After(p, events), false) {
        RunWinds(p, events);
        WoundServesNot(After(p, events));
      }
    }
  }

  lemma WoundServesNot(p: Pool)
    requires Winding(p)
    ensures !ServesLast(p, false)
  {
    hide TableOf, Those, RunAble, RecoveryAble;
  }

  /** Whatever is retired, nothing but dead engines is left. */
  ghost predicate LeavesNothing(p: Pool) {
    forall events :: After(p, events).disposal == [] ==> forall g <- After(p, events).generations :: g.status == Dead
  }

  lemma RetiredAll(p: Pool)
    requires Steady(p) && Retiring(p) && p.disposal == []
    ensures forall g <- p.generations :: g.status == Dead
  {
    forall g | g in p.generations ensures g.status == Dead {
      var i :| 0 <= i < |p.generations| && p.generations[i] == g;
      TableMember(p.generations, i);
    }
  }

  lemma UnspentAble(p: Pool)
    requires Whole(p) && !p.disposed && !(Spent(p.inFlight) && p.recovery.None?)
    ensures RunAble(p) || RecoveryAble(p)
  {
    hide TableOf, DistinctIds;
  }

  lemma ServesSomething(p: Pool)
    requires MayServe(p, false)
    ensures !LeavesNothing(p)
  {
    var events :| ServesLast(After(p, events), false);
    var q := After(p, events);
    hide After;
    var id :| id in Those(TableOf(q.generations), Primary);
    TableKeys(q.generations);
    hide TableOf;
    assert TableOf(q.generations)[id] in q.generations;
  }

  /** The first disposal of a pool leaves no engine but dead ones, whenever everything in
      line is retired and ever after, exactly when no recovery is in flight, and no rollover
      but one that waits for a drain, reloads in place or is over. */
  lemma DisposalComplete(p: Pool)
    requires Whole(p) && Asks(p.inFlight) && !p.disposed
    ensures LeavesNothing(DisposeStarted(p)) <==> Spent(p.inFlight) && p.recovery.None?
  {
    var q := DisposeStarted(p);
    if Spent(p.inFlight) && p.recovery.None? {
      DisposeRetires(p);
      StepSteady(p, EDisposeStarted);
      assert Next(p, EDisposeStarted) == q;
      forall events | After(q, events).disposal == []
        ensures forall g <- After(q, events).generations :: g.status == Dead
      {
        RunRetires(q, events);
        RetiredAll(After(q, events));
      }
    } else {
      UnspentAble(p);
      StepSteady(p, EDisposeStarted);
      assert Next(p, EDisposeStarted) == q;
      AbleMayServe(q);
      ServesSomething(q);
    }
  }

  // ---------------------------------------------------------------- over runs

  lemma {:induction false} RunWhole(p: Pool, events: seq<Event>)
    requires Whole(p) && Asks(p.inFlight)
    ensures Whole(After(p, events)) && Asks(After(p, events).inFlight)
    decreases |events|
  {
    if events != [] {
      StepWhole(p, events[0]);
      StepAsks(p, events[0]);
      hide Whole, Next, Asks;
      RunWhole(Next(p, events[0]), events[1..]);
    }
  }

  /** In every run from startup, whatever overlaps: a disposed pool may come to serve with
      nothing left to retire exactly when an engine in service is not in line to be retired,
      or the rollover or recovery in flight is able to put one in service. */
  lemma DisposedServesIff(settings: Settings, config: Config, endpoint: Endpoint, fingerprint: string, now: int,
                          events: seq<Event>)
    requires After(Adopted(settings, config, endpoint, fingerprint, now), events).disposed
    ensures var p := After(Adopted(settings, config, endpoint, fingerprint, now), events);
      MayServe(p, false) <==>
        || RunAble(p) || RecoveryAble(p)
        || exists id <- Those(TableOf(p.generations), Primary) :: id !in p.disposal
  {
    AdoptedWhole(settings, config, endpoint, fingerprint, now);
    RunWhole(Adopted(settings, config, endpoint, fingerprint, now), events);
    hide Adopted, After, MayServe, RunAble, RecoveryAble, Those, TableOf, Sound, Live;
    DisposedServes(After(Adopted(settings, config, endpoint, fingerprint, now), events));
  }

  /** In every run from startup, whatever overlaps: the first disposal leaves no engine but
      dead ones, whenever everything in line is retired and ever after, exactly when no
      recovery is in flight, and no rollover but one that waits for a drain, reloads in place
      or is over. */
  lemma DisposalCompleteIff(settings: Settings, config: Config, endpoint: Endpoint, fingerprint: string, now: int,
                            events: seq<Event>)
    requires !After(Adopted(settings, config, endpoint, fingerprint, now), events).disposed
    ensures var p := After(Adopted(settings, config, endpoint, fingerprint, now), events);
      LeavesNothing(Next(p, EDisposeStarted)) <==> Spent(p.inFlight) && p.recovery.None?
  {
    AdoptedWhole(settings, config, endpoint, fingerprint, now);
    RunWhole(Adopted(settings, config, endpoint, fingerprint, now), events);
    hide Adopted, After, LeavesNothing, Spent, TableOf, Sound, Live, DisposeStarted;
    DisposalComplete(After(Adopted(settings, config, endpoint, fingerprint, now), events));
  }

  /** Once no rollover and no recovery is in flight, a disposal leaves nothing, whatever it
      found: a second one retires what a first left behind. */
  lemma DisposalEnds(settings: Settings, config: Config, endpoint: Endpoint, fingerprint: string, now: int,
                     events: seq<Event>, after: seq<Event>)
    requires var p := After(Adopted(settings, config, endpoint, fingerprint, now), events);
      Spent(p.inFlight) && p.recovery.None?
    requires var p := After(Adopted(settings, config, endpoint, fingerprint, now), events);
      After(Next(p, EDisposeStarted), after).disposal == []
    ensures var p := After(Adopted(settings, config, endpoint, fingerprint, now), events);
      forall g <- After(Next(p, EDisposeStarted), after).generations :: g.status == Dead
  {
    AdoptedWhole(settings, config, endpoint, fingerprint, now);
    RunWhole(Adopted(settings, config, endpoint, fingerprint, now), events);
    var p := After(Adopted(settings, config, endpoint, fingerprint, now), events);
    hide Adopted, After, TableOf, Sound, Live, Spent;
    DisposeRetires(p);
    StepSteady(p, EDisposeStarted);
    assert Next(p, EDisposeStarted) == DisposeStarted(p);
    hide Next, DisposeStarted, Retiring;
    RunRetires(DisposeStarted(p), after);
    RetiredAll(After(DisposeStarted(p), after));
  }
}
