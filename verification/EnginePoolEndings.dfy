/** What polls, retirements, disposals and recoveries leave behind, and how long a drain and a
    wait last. */
module EnginePoolEndings {
  import opened Wrappers
  import opened EnginePoolFrames
  import opened EnginePoolModel
  import opened EnginePoolInvariants
  import opened EnginePoolLifecycle
  import opened EnginePoolTheorems
  import opened EnginePoolDrains
  import opened EnginePoolOverlaps
  import opened EnginePoolPins
  import opened EnginePoolHandover
  import opened EnginePoolOutcomes

  // ------------------------------------------------------------------- polls

  /** Every trace of the engine is gone: it is dead, nothing belongs to it, and it is closed. */
  ghost predicate Gone(p: Pool, q: Pool, id: Id, cause: Cause) {
    && TableOf(q.generations) == Updated(TableOf(p.generations), id, Dead, None)
    && q.sessionOwnership == map[] && q.pinnedRequests == map[] && q.activeSessions == map[]
    && q.closing == p.closing[id := cause]
  }

  lemma OwnersOf(p: Pool, id: Id)
    requires Inv(p) && Has(TableOf(p.generations), id, Draining)
    ensures forall s <- p.sessionOwnership :: p.sessionOwnership[s] == id
    ensures forall r <- p.pinnedRequests :: p.pinnedRequests[r] == id
    ensures p.activeSessions.Keys <= {id}
    ensures DistinctIds(p.generations)
  {
    OwnersDrain(p, id);
  }

  lemma RetireEnds(p: Pool, id: Id, cause: Cause)
    requires Has(TableOf(p.generations), id, Draining)
    requires forall s <- p.sessionOwnership :: p.sessionOwnership[s] == id
    requires forall r <- p.pinnedRequests :: p.pinnedRequests[r] == id
    requires p.activeSessions.Keys <= {id}
    ensures Gone(p, RetireStarted(p, id, cause), id, cause)
    ensures RetireStarted(p, id, cause).aborts == p.aborts && RetireStarted(p, id, cause).polls == p.polls
  {
    DrainingStatus(p.generations, id);
    TableAssign(p.generations, id, Dead, None);
    hide TableOf, Assign, StatusOf;
  }

  /** A poll of a draining engine: when it finds nothing running the engine is retired;
      otherwise the engine owns exactly the sessions the poll reports, which are its recorded
      activity, and it goes on draining, with its sessions aborted exactly when the deadline
      has passed. */
  lemma PollOutcome(p: Pool, id: Id, remaining: set<string>, now: int)
    requires Inv(p) && Has(TableOf(p.generations), id, Draining) && id in p.polls
    ensures var q := PollReturned(p, id, remaining, now);
      && q.polls == p.polls - multiset{id}
      && if remaining == {} then Gone(p, q, id, Idle) && q.aborts == p.aborts
         else
           && q.sessionOwnership == AllOf(remaining, id) && q.activeSessions == map[id := remaining]
           && q.pinnedRequests == p.pinnedRequests && q.generations == p.generations && q.closing == p.closing
           && q.aborts == (if TableOf(p.generations)[id].drainDeadline.value <= now then p.aborts + multiset{id} else p.aborts)
  {
    OwnersOf(p, id);
    var q := UpdateActiveSessions(p.(polls := p.polls - multiset{id}), id, remaining);
    PollUpdates(p.(polls := p.polls - multiset{id}), id, remaining);
    if remaining == {} {
      hide *;
      RetireEnds(q, id, Idle);
      IdlePoll(p, id, now);
      GoneAlike(p, q, PollReturned(p, id, remaining, now), id);
    } else {
      DeadlineKnown(p, id);
      TableFinds(p.generations, id);
      hide TableOf, Inv, RetireStarted, UpdateActiveSessions, Gone;
    }
  }

  lemma IdlePoll(p: Pool, id: Id, now: int)
    requires id in p.polls
    ensures PollReturned(p, id, {}, now) ==
      RetireStarted(UpdateActiveSessions(p.(polls := p.polls - multiset{id}), id, {}), id, Idle)
  {
    hide RetireStarted, UpdateActiveSessions;
  }

  lemma GoneAlike(p: Pool, q: Pool, r: Pool, id: Id)
    requires Gone(q, r, id, Idle) && q.generations == p.generations && q.closing == p.closing
    ensures Gone(p, r, id, Idle)
  {
    hide TableOf, Updated;
  }

  /** Nothing belonged to any other engine. */
  lemma PollUpdates(p: Pool, id: Id, remaining: set<string>)
    requires forall s <- p.sessionOwnership :: p.sessionOwnership[s] == id
    requires p.activeSessions.Keys <= {id}
    ensures var q := UpdateActiveSessions(p, id, remaining);
      && q == p.(sessionOwnership := q.sessionOwnership, activeSessions := q.activeSessions)
      && q.sessionOwnership == AllOf(remaining, id) && q.activeSessions == map[id := remaining]
  {
  }

  lemma DeadlineKnown(p: Pool, id: Id)
    requires Inv(p) && Has(TableOf(p.generations), id, Draining)
    ensures TableOf(p.generations)[id].drainDeadline.Some?
  {
    hide TableOf, DistinctIds;
  }

  /** Once its sessions are aborted a draining engine is retired. */
  lemma AbortOutcome(p: Pool, id: Id)
    requires Inv(p) && Has(TableOf(p.generations), id, Draining) && id in p.aborts
    ensures var q := AbortsDone(p, id);
      q.aborts == p.aborts - multiset{id} && Gone(p, q, id, Forced)
  {
    OwnersOf(p, id);
    RetireEnds(p.(aborts := p.aborts - multiset{id}), id, Forced);
    hide TableOf, Inv, RetireStarted;
  }

  /** A tick polls its engine exactly when the engine drains. */
  lemma TickPolls(p: Pool, id: Id)
    ensures TickStarted(p, id) ==
      if Has(TableOf(p.generations), id, Draining) then p.(polls := p.polls + multiset{id}) else p
  {
    TableFinds(p.generations, id);
  }

  // -------------------------------------------------------- how long a drain lasts

  /** Before its deadline nothing but an idle poll ends a drain: the engine drains, with no
      session aborted, through every run whose polls of it all come back in time and find
      something running. */
  lemma {:induction false} DrainLasts(p: Pool, events: seq<Event>, id: Id, deadline: int)
    requires Inv(p) && SerialRun(p, events) && Drains(p, id, deadline) && id !in p.aborts
    requires forall e <- events :: e.EPollReturned? && e.id == id ==> e.remaining != {} && e.now < deadline
    requires forall e <- events :: !e.EDisposeStarted?
    requires !p.disposed
    ensures Drains(After(p, events), id, deadline) && id !in After(p, events).aborts && !After(p, events).disposed
    decreases |events|
  {
    if events != [] {
      var e := events[0];
      DrainGoesOn(p, e, id, deadline);
      StepKeeps(p, e);
      assert forall e <- events[1..] :: e in events;
      hide Inv, Serial, Fresh, Next, Drains;
      DrainLasts(Next(p, e), events[1..], id, deadline);
    }
  }

  lemma DrainGoesOn(p: Pool, e: Event, id: Id, deadline: int)
    requires Inv(p) && Serial(p) && Fresh(p, e) && Drains(p, id, deadline) && id !in p.aborts && !p.disposed
    requires e.EPollReturned? && e.id == id ==> e.remaining != {} && e.now < deadline
    requires !e.EDisposeStarted?
    ensures Drains(Next(p, e), id, deadline) && id !in Next(p, e).aborts && !Next(p, e).disposed
  {
    NotDisposing(p);
    NoAbort(p, e, id, deadline);
    StaysInUse(p, e);
    hide Next, Fresh, Serial, TableOf, Has;
    if e == EAbortsDone(id) {
      assert Next(p, e) == p by { NothingAborted(p, id); }
    } else {
      DrainsOn(p, e, id, deadline);
    }
  }

  lemma NotDisposing(p: Pool)
    requires Inv(p) && !p.disposed
    ensures p.disposal == []
  {
    hide TableOf, DistinctIds;
  }

  lemma NothingAborted(p: Pool, id: Id)
    requires id !in p.aborts
    ensures Next(p, EAbortsDone(id)) == p
  {
  }

  lemma DrainsOn(p: Pool, e: Event, id: Id, deadline: int)
    requires Inv(p) && Serial(p) && Fresh(p, e) && Drains(p, id, deadline) && p.disposal == [] && e != EAbortsDone(id)
    requires e.EPollReturned? && e.id == id ==> e.remaining != {}
    ensures Drains(Next(p, e), id, deadline)
  {
    assert Has(TableOf(p.generations), id, Draining);
    DrainStep(p, e, id, deadline);
    hide Inv, Next, Fresh, Serial, TableOf;
    DrainingStays(p, e, id);
  }

  lemma StaysInUse(p: Pool, e: Event)
    requires !p.disposed && !e.EDisposeStarted?
    ensures !Next(p, e).disposed
  {
    if OfRun(e) {
      RunRolls(p, e);
      hide Next;
    } else {
      hide PollReturned, RetireStarted, RouteRequest, ForwardEvent, Flipped, ReplacementRegistered, Without, Merge, AddOwner,
           PrimaryId;
      match e
      case EPollReturned(id, remaining, now) => PollTouches(p, id, remaining, now);
      case EAbortsDone(id) => RetireTouches(p.(aborts := p.aborts - multiset{id}), id, Forced);
      case EDisposeNext =>
        if p.disposal != [] { RetireTouches(p.(disposal := p.disposal[1..]), p.disposal[0], Shutdown); }
      case EFlipped(now) => FlippedTouches(p, now);
      case EReplacementRegistered => ReplacementTouches(p);
      case ERoute(path) => RouteTouchesOwners(p, path);
      case EForward(id, payload) => ForwardTouchesPins(p, id, payload);
      case _ =>
    }
  }

  lemma PollSpares(p: Pool, id: Id, remaining: set<string>, now: int, deadline: int)
    requires Drains(p, id, deadline) && id in p.polls && remaining != {} && now < deadline
    ensures PollReturned(p, id, remaining, now).aborts == p.aborts
  {
    TableFinds(p.generations, id);
    UpdateTouches(p.(polls := p.polls - multiset{id}), id, remaining);
    hide TableOf, UpdateActiveSessions;
  }

  lemma NoAbort(p: Pool, e: Event, id: Id, deadline: int)
    requires Drains(p, id, deadline) && id !in p.aborts
    requires e.EPollReturned? && e.id == id ==> e.remaining != {} && e.now < deadline
    ensures id !in Next(p, e).aborts
  {
    if NoTick(e) {
      TicksLeft(p, e);
      hide Next;
    } else if e.EPollReturned? {
      hide PollReturned, Drains;
      PollKeepsAborts(p, e.id, e.remaining, e.now);
      if e.id == id && id in p.polls { PollSpares(p, id, e.remaining, e.now, deadline); }
    } else {
      hide Drains;
      TickAborts(p, e, id);
    }
  }

  lemma TickAborts(p: Pool, e: Event, id: Id)
    requires !NoTick(e) && !e.EPollReturned? && id !in p.aborts
    ensures id !in Next(p, e).aborts
  {
    hide RetireStarted, Flipped, ReplacementRegistered, StatusOf;
    match e
    case EAbortsDone(g) => RetireTouches(p.(aborts := p.aborts - multiset{g}), g, Forced);
    case EDisposeNext =>
      if p.disposal != [] { RetireTouches(p.(disposal := p.disposal[1..]), p.disposal[0], Shutdown); }
    case EFlipped(now) => FlippedTouches(p, now);
    case EReplacementRegistered => ReplacementTouches(p);
    case ETickStarted(g) =>
  }

  // ----------------------------------------------------------------- waiting

  /** A run that waits for a drain moves on exactly when it was woken and is resumed: it starts
      over with the request it waited with, unless the pool is disposed by then. */
  lemma WaiterStartsOver(p: Pool, e: Event)
    requires p.inFlight.Some? && p.inFlight.value.AwaitingDrain?
    ensures var wait, q := p.inFlight.value, Next(p, e);
      q.inFlight == Some(
        if wait.resumed && e.EDrainResumed? then if p.disposed then Settled else Preparing(wait.request)
        else AwaitingDrain(wait.request, wait.resumed || (e.EClosed? && e.id in p.closing)))
  {
    if e.EClosed? {
      hide Without, Merge;
    } else if e.EDrainResumed? {
    } else {
      if Next(p, e).inFlight != p.inFlight { RunMoves(p, e); }
      hide Next;
    }
  }

  /** A run that is over leaves, and what is in the slot is run next, unless the pool is disposed. */
  lemma SettleRunsSlot(p: Pool)
    requires p.inFlight == Some(Settled)
    ensures Settle(p) ==
      p.(pending := None,
         inFlight := if p.pending.Some? && !p.disposed then Some(Preparing(p.pending.value)) else None)
  {
    hide Merge;
  }

  // ---------------------------------------------------------------- recovery

  /** The segments of a recovery that is answered so. */
  function RecoverySegments(closes: bool, spawned: Option<Endpoint>, healthy: bool, fingerprint: string): seq<Event> {
    [ERecoveryStarted, EOldClosed(closes), EReplacementSpawned(spawned), EReplacementChecked(healthy, fingerprint),
     EReplacementRegistered]
  }

  /** Every recovery, by itself, ends as it is answered: when the old primary does not close
      nothing happens; else it is gone, and if its replacement starts and is healthy the
      replacement is the primary, built from the fingerprint, and everything points at it. */
  ghost predicate Recovers(p: Pool, q: Pool, primary: Option<Id>, closes: bool, spawned: Option<Endpoint>, healthy: bool,
                           fingerprint: string)
  {
    var t, t' := TableOf(p.generations), TableOf(q.generations);
    var gone := if primary.Some? then t - {primary.value} else t;
    if primary.Some? && !closes then q == p
    else if spawned.None? || !healthy then q == p.(generations := q.generations) && t' == gone
    else
      && q == p.(generations := q.generations, config := q.config, nextId := p.nextId + 1)
      && t' == gone[p.nextId := Generation(p.nextId, spawned.value, Primary, fingerprint, None)]
      && Repointed(p.config, q.config, spawned.value)
  }

  lemma AfterCons(p: Pool, e: Event, rest: seq<Event>)
    ensures After(p, [e] + rest) == After(Next(p, e), rest)
  {
    assert ([e] + rest)[0] == e && ([e] + rest)[1..] == rest;
    hide Next;
  }

  lemma AfterTwo(p: Pool, a: Event, b: Event, rest: seq<Event>)
    ensures After(p, [a, b] + rest) == After(Next(Next(p, a), b), rest)
  {
    hide *;
    assert [a, b] + rest == [a] + ([b] + rest);
    AfterCons(p, a, [b] + rest);
    AfterCons(Next(p, a), b, rest);
  }

  /** With the old primary out of the way. */
  lemma ReplacementEnds(p: Pool, spawned: Option<Endpoint>, healthy: bool, fingerprint: string)
    requires Numbered(p) && p.recovery == Some(SpawningReplacement)
    ensures var q := After(p, [EReplacementSpawned(spawned), EReplacementChecked(healthy, fingerprint)] + [EReplacementRegistered]);
      var t, t' := TableOf(p.generations), TableOf(q.generations);
      if spawned.None? || !healthy then q == p.(recovery := None)
      else
        && q == p.(generations := q.generations, config := q.config, nextId := p.nextId + 1, recovery := None)
        && t' == t[p.nextId := Generation(p.nextId, spawned.value, Primary, fingerprint, None)]
        && Repointed(p.config, q.config, spawned.value)
  {
    var r := ReplacementChecked(ReplacementSpawned(p, spawned), healthy, fingerprint);
    ReplacementRuns(p, spawned, healthy, fingerprint);
    ReplacementComes(p, spawned, healthy, fingerprint);
    hide After, ReplacementSpawned, ReplacementChecked, TableOf, DistinctIds, Repointed;
    if spawned.Some? && healthy {
      hide ReplacementRegistered;
      ReplacementFlips(p, r, Generation(p.nextId, spawned.value, Starting, fingerprint, None));
    }
  }

  lemma ReplacementRuns(p: Pool, spawned: Option<Endpoint>, healthy: bool, fingerprint: string)
    ensures After(p, [EReplacementSpawned(spawned), EReplacementChecked(healthy, fingerprint)] + [EReplacementRegistered]) ==
            ReplacementRegistered(ReplacementChecked(ReplacementSpawned(p, spawned), healthy, fingerprint))
  {
    var r := ReplacementChecked(ReplacementSpawned(p, spawned), healthy, fingerprint);
    hide After, ReplacementSpawned, ReplacementChecked, ReplacementRegistered;
    AfterTwo(p, EReplacementSpawned(spawned), EReplacementChecked(healthy, fingerprint), [EReplacementRegistered]);
    AfterOne(r, EReplacementRegistered);
  }

  lemma ReplacementComes(p: Pool, spawned: Option<Endpoint>, healthy: bool, fingerprint: string)
    requires Numbered(p) && p.recovery == Some(SpawningReplacement)
    ensures var r := ReplacementChecked(ReplacementSpawned(p, spawned), healthy, fingerprint);
      if spawned.None? || !healthy then r == p.(recovery := None)
      else
        var g := Generation(p.nextId, spawned.value, Starting, fingerprint, None);
        && r == p.(generations := r.generations, nextId := p.nextId + 1,
                   recovery := Some(RegisteringReplacement(Handle(g.id, g.endpoint))))
        && DistinctIds(r.generations) && TableOf(r.generations) == TableOf(p.generations)[g.id := g]
  {
    if spawned.Some? { AppendBecomes(p, Generation(p.nextId, spawned.value, Starting, fingerprint, None)); }
    hide TableOf, DistinctIds;
  }

  lemma ReplacementFlips(p: Pool, r: Pool, g: Generation)
    requires DistinctIds(r.generations) && TableOf(r.generations) == TableOf(p.generations)[g.id := g]
    requires r == p.(generations := r.generations, nextId := p.nextId + 1,
                     recovery := Some(RegisteringReplacement(Handle(g.id, g.endpoint))))
    ensures var q := ReplacementRegistered(r);
      && q == p.(generations := q.generations, config := q.config, nextId := p.nextId + 1, recovery := None)
      && TableOf(q.generations) == TableOf(p.generations)[g.id := g.(status := Primary, drainDeadline := None)]
      && Repointed(p.config, q.config, g.endpoint)
  {
    PromotedList(r.generations, g.id);
    RepointedBy(p.config, g.endpoint);
    hide TableOf, DistinctIds, Assign, PointedAt, Repointed;
  }

  lemma AfterOne(p: Pool, e: Event)
    ensures After(p, [e]) == Next(p, e)
  {
    hide Next;
    AfterCons(p, e, []);
    assert [e] + [] == [e];
  }

  lemma RecoveryBegins(p: Pool, closes: bool, spawned: Option<Endpoint>, healthy: bool, fingerprint: string)
    ensures After(p, RecoverySegments(closes, spawned, healthy, fingerprint)) ==
            After(OldClosed(RecoveryStarted(p), closes),
                  [EReplacementSpawned(spawned), EReplacementChecked(healthy, fingerprint)] + [EReplacementRegistered])
  {
    var last := [EReplacementSpawned(spawned), EReplacementChecked(healthy, fingerprint)] + [EReplacementRegistered];
    hide After, RecoveryStarted, OldClosed;
    assert Next(Next(p, ERecoveryStarted), EOldClosed(closes)) == OldClosed(RecoveryStarted(p), closes);
    hide Next;
    assert RecoverySegments(closes, spawned, healthy, fingerprint) == [ERecoveryStarted, EOldClosed(closes)] + last;
    hide RecoverySegments;
    AfterTwo(p, ERecoveryStarted, EOldClosed(closes), last);
  }

  lemma KnownPrimary(p: Pool, primary: Option<Id>)
    requires Numbered(p) && AtMostOne(TableOf(p.generations), Primary) && IsPrimary(TableOf(p.generations), primary)
    ensures PrimaryId(p.generations) == primary
  {
    OnePrimaryId(p, primary);
  }

  lemma RecoveryEnds(p: Pool, primary: Option<Id>, closes: bool, spawned: Option<Endpoint>, healthy: bool, fingerprint: string)
    requires Numbered(p) && AtMostOne(TableOf(p.generations), Primary) && IsPrimary(TableOf(p.generations), primary)
    requires !p.disposed && p.recovery.None?
    ensures Recovers(p, After(p, RecoverySegments(closes, spawned, healthy, fingerprint)), primary, closes, spawned, healthy, fingerprint)
  {
    hide *;
    var last := [EReplacementSpawned(spawned), EReplacementChecked(healthy, fingerprint)] + [EReplacementRegistered];
    var r := OldClosed(RecoveryStarted(p), closes);
    RecoveryBegins(p, closes, spawned, healthy, fingerprint);
    KnownPrimary(p, primary);
    OldGone(p, primary, closes);
    if primary.Some? && !closes {
      StaysRecovered(p, last, spawned, healthy, fingerprint);
      RecoversNot(p, primary, closes, spawned, healthy, fingerprint);
    } else {
      ReplacementEnds(r, spawned, healthy, fingerprint);
      RecoversFrom(p, r, After(r, last), primary, closes, spawned, healthy, fingerprint);
    }
  }

  lemma RecoversNot(p: Pool, primary: Option<Id>, closes: bool, spawned: Option<Endpoint>, healthy: bool, fingerprint: string)
    requires primary.Some? && !closes
    ensures Recovers(p, p, primary, closes, spawned, healthy, fingerprint)
  {
  }

  lemma RecoversFrom(p: Pool, r: Pool, q: Pool, primary: Option<Id>, closes: bool, spawned: Option<Endpoint>, healthy: bool,
                     fingerprint: string)
    requires primary.None? || closes
    requires p.recovery.None? && r == p.(generations := r.generations, recovery := Some(SpawningReplacement))
    requires TableOf(r.generations) == (if primary.Some? then TableOf(p.generations) - {primary.value} else TableOf(p.generations))
    requires
      if spawned.None? || !healthy then q == r.(recovery := None)
      else
        && q == r.(generations := q.generations, config := q.config, nextId := r.nextId + 1, recovery := None)
        && TableOf(q.generations) == TableOf(r.generations)[r.nextId := Generation(r.nextId, spawned.value, Primary, fingerprint, None)]
        && Repointed(r.config, q.config, spawned.value)
    ensures Recovers(p, q, primary, closes, spawned, healthy, fingerprint)
  {
    hide TableOf, Repointed;
  }

  lemma OldGone(p: Pool, primary: Option<Id>, closes: bool)
    requires Numbered(p) && PrimaryId(p.generations) == primary && !p.disposed && p.recovery.None?
    ensures var r := OldClosed(RecoveryStarted(p), closes);
      if primary.Some? && !closes then r == p
      else
        && r == p.(generations := r.generations, recovery := Some(SpawningReplacement)) && Numbered(r)
        && TableOf(r.generations) == (if primary.Some? then TableOf(p.generations) - {primary.value} else TableOf(p.generations))
  {
    if primary.Some? { TableWithout(p.generations, primary.value); }
    hide TableOf, DistinctIds, PrimaryId, Without;
  }

  lemma StaysRecovered(p: Pool, last: seq<Event>, spawned: Option<Endpoint>, healthy: bool, fingerprint: string)
    requires p.recovery.None?
    requires last == [EReplacementSpawned(spawned), EReplacementChecked(healthy, fingerprint)] + [EReplacementRegistered]
    ensures After(p, last) == p
  {
    AfterTwo(p, EReplacementSpawned(spawned), EReplacementChecked(healthy, fingerprint), [EReplacementRegistered]);
    AfterOne(p, EReplacementRegistered);
  }

  // ---------------------------------------------------------------- disposal

  ghost predicate NoneTwice(ids: seq<Id>) {
    forall i, j | 0 <= i < j < |ids| :: ids[i] != ids[j]
  }

  lemma {:induction false} IdsExact(gens: seq<Generation>, draining: bool)
    ensures forall id :: id in Ids(gens, draining) <==> exists g <- gens :: g.id == id && (g.status == Draining) == draining
  {
    if gens != [] {
      IdsExact(gens[1..], draining);
      assert gens == [gens[0]] + gens[1..];
    }
  }

  lemma {:induction false} IdsOnce(gens: seq<Generation>, draining: bool)
    requires DistinctIds(gens)
    ensures NoneTwice(Ids(gens, draining))
  {
    if gens != [] {
      var rest := gens[1..];
      forall i, j | 0 <= i < j < |rest| ensures rest[i].id != rest[j].id {
        assert rest[i] == gens[i + 1] && rest[j] == gens[j + 1];
      }
      IdsOnce(rest, draining);
      IdsExact(rest, draining);
      forall g | g in rest ensures g.id != gens[0].id {
        var i :| 0 <= i < |rest| && rest[i] == g;
        assert gens[i + 1] == g;
      }
      OncePrepended(gens[0].id, Ids(rest, draining));
    }
  }

  lemma OncePrepended(id: Id, ids: seq<Id>)
    requires NoneTwice(ids) && id !in ids
    ensures NoneTwice([id] + ids) && NoneTwice([] + ids)
  {
  }

  /** A first disposal lines up every engine of the list once, the draining ones first. */
  lemma DisposalLine(p: Pool)
    requires DistinctIds(p.generations) && p.disposal == []
    ensures var line, t := DisposeStarted(p).disposal, TableOf(p.generations);
      && (forall id :: id in line <==> id in t)
      && NoneTwice(line)
      && (forall i, j | 0 <= i < j < |line| && Has(t, line[j], Draining) :: Has(t, line[i], Draining))
  {
    var a, b, t := Ids(p.generations, true), Ids(p.generations, false), TableOf(p.generations);
    IdsExact(p.generations, true);
    IdsExact(p.generations, false);
    IdsOnce(p.generations, true);
    IdsOnce(p.generations, false);
    assert DisposeStarted(p).disposal == a + b;
    forall id ensures (id in a <==> Has(t, id, Draining)) && (id in b <==> id in t && !Has(t, id, Draining)) {
      ListedIs(p.generations, id);
    }
    hide Ids, TableOf, DistinctIds;
    TwoLines(a, b, t);
  }

  lemma TwoLines(a: seq<Id>, b: seq<Id>, t: Table)
    requires NoneTwice(a) && NoneTwice(b)
    requires forall id :: (id in a <==> Has(t, id, Draining)) && (id in b <==> id in t && !Has(t, id, Draining))
    ensures forall id :: id in a + b <==> id in t
    ensures NoneTwice(a + b)
    ensures forall i, j | 0 <= i < j < |a + b| && Has(t, (a + b)[j], Draining) :: Has(t, (a + b)[i], Draining)
  {
    assert forall k | 0 <= k < |a| :: (a + b)[k] in a;
    assert forall k | |a| <= k < |a + b| :: (a + b)[k] in b;
  }

  lemma ListedIs(gens: seq<Generation>, id: Id)
    requires DistinctIds(gens)
    ensures Has(TableOf(gens), id, Draining) <==> exists g <- gens :: g.id == id && g.status == Draining
    ensures id in TableOf(gens) && TableOf(gens)[id].status != Draining <==> exists g <- gens :: g.id == id && g.status != Draining
  {
    TableKeys(gens);
    if g :| g in gens && g.id == id {
      var i :| 0 <= i < |gens| && gens[i] == g;
      TableMember(gens, i);
    }
  }
}
