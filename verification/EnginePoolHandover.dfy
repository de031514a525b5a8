/** What a rollover hands to the engine it demotes, whatever happens while it asks. */
module EnginePoolHandover {
  import opened Wrappers
  import opened EnginePoolFrames
  import opened EnginePoolModel
  import opened EnginePoolInvariants
  import opened EnginePoolLifecycle
  import opened EnginePoolTheorems
  import opened EnginePoolDrains
  import opened EnginePoolPins

  // --------------------------------------------------- whose segment it is

  /** The segment the suspended run waits for. */
  predicate Awaits(run: Run, e: Event) {
    match run
    case Preparing(_) => e.EPrepared?
    case ProbingBusy(_, _, _) => e.EBusyKnown?
    case Reloading(_, _) => e.EReloaded?
    case AwaitingDrain(_, resumed) => if resumed then e.EDrainResumed? else e.EClosed?
    case Spawning(_, _) => e.ESpawned?
    case CheckingHealth(_, _) => e.EHealthKnown?
    case ClosingStandby => e.EStandbyClosed?
    case Registering(_, _) => e.ERegistered?
    case ListingSessions(_, _) => e.ESessionsListed?
    case ListingRequests(_, _, _, _, surfaces) => if surfaces == 0 then e.EFlipped? else e.ESurfaceListed?
    case Settled => e.ESettle?
  }

  /** Whatever overlaps, a run in flight moves only by the segment it waits for. */
  lemma RunMoves(p: Pool, e: Event)
    requires p.inFlight.Some? && Next(p, e).inFlight != p.inFlight
    ensures Awaits(p.inFlight.value, e)
  {
    hide Awaits;
    if OfRun(e) { SegmentMoves(p, e); } else { OtherMoves(p, e); }
  }

  lemma SegmentMoves(p: Pool, e: Event)
    requires p.inFlight.Some? && OfRun(e) && Next(p, e).inFlight != p.inFlight
    ensures Awaits(p.inFlight.value, e)
  {
    hide Decide, Find, PrimaryId, Without, Merge, Fingerprinted;
    match e
    case EPrepared(_, _) =>
    case EBusyKnown(_, _) =>
    case _ => hide Prepared, BusyKnown;
  }

  lemma OtherMoves(p: Pool, e: Event)
    requires p.inFlight.Some? && !OfRun(e) && Next(p, e).inFlight != p.inFlight
    ensures Awaits(p.inFlight.value, e)
  {
    hide Flipped, Closed;
    match e
    case EFlipped(now) => if !FlipReady(p) { FlipIdle(p, now); }
    case EClosed(id) => CloseMoves(p, id);
    case ESurfaceListed(_, _) => hide AddOwner;
    case _ => StillMoves(p, e); hide Next;
  }

  lemma CloseMoves(p: Pool, id: Id)
    requires p.inFlight.Some? && Closed(p, id).inFlight != p.inFlight
    ensures p.inFlight.value.AwaitingDrain? && !p.inFlight.value.resumed
  {
    hide Without, Merge;
  }

  lemma StillMoves(p: Pool, e: Event)
    requires p.inFlight.Some? && !OfRun(e) && !e.EFlipped? && !e.EClosed? && !e.ESurfaceListed?
    ensures Next(p, e).inFlight == p.inFlight
  {
    hide PollReturned, RetireStarted, RouteRequest, ForwardEvent, Without, Ids, PrimaryId, ReplacementRegistered, StatusOf;
    match e
    case EPollReturned(id, remaining, now) => PollTouches(p, id, remaining, now);
    case EAbortsDone(id) => RetireTouches(p.(aborts := p.aborts - multiset{id}), id, Forced);
    case EDisposeNext =>
      if p.disposal != [] { RetireTouches(p.(disposal := p.disposal[1..]), p.disposal[0], Shutdown); }
    case EReplacementRegistered => ReplacementTouches(p);
    case ERoute(path) => RouteTouchesOwners(p, path);
    case EForward(id, payload) => ForwardTouchesPins(p, id, payload);
    case _ =>
  }

  // ------------------------------------------------------ what was answered

  /** The requests named by the first `n` prompt lists that come in. */
  function ListedRequests(events: seq<Event>, n: nat): set<string>
    decreases |events|
  {
    if events == [] || n == 0 then {}
    else if events[0].ESurfaceListed? then events[0].requests + ListedRequests(events[1..], n - 1)
    else ListedRequests(events[1..], n)
  }

  predicate Starts(e: Event, session: string) {
    e.ERoute? && e.path.promptish && e.path.session == Some(session)
  }

  /** One of the first `n` prompt lists that come in names the session, and no turn was
      started in it since. */
  predicate ListedSince(events: seq<Event>, n: nat, session: string, listed: bool)
    decreases |events|
  {
    if events == [] then listed
    else if events[0].ESurfaceListed? && n > 0 then
      ListedSince(events[1..], n - 1, session, listed || session in events[0].sessions)
    else ListedSince(events[1..], n, session, listed && !Starts(events[0], session))
  }

  /** The run asks for prompt lists in every state. */
  ghost predicate AsksThrough(p: Pool, events: seq<Event>)
    decreases |events|
  {
    && p.inFlight.Some? && p.inFlight.value.ListingRequests?
    && (events != [] ==> AsksThrough(Next(p, events[0]), events[1..]))
  }

  // ---------------------------------------------------------- event by event

  /** All of these belong to the engine. */
  function AllOf(keys: set<string>, id: Id): map<string, Id> {
    map k | k in keys :: id
  }

  /** The lists still to come, what they named so far, and who owns what. */
  ghost predicate Gathers(p: Pool, id: Id, standby: Handle, sessions: set<string>, n: nat, requests: set<string>,
                          owned: set<string>)
  {
    && p.inFlight == Some(ListingRequests(Some(id), standby, sessions, requests, n))
    && p.sessionOwnership == AllOf(owned, id)
  }

  /** The segments of other runs and of recoveries, and the ticks, leave the run asking. */
  lemma AskingStays(p: Pool, e: Event)
    requires p.inFlight.Some? && p.inFlight.value.ListingRequests? && !e.ESurfaceListed? && !e.EFlipped?
    ensures Next(p, e).inFlight == p.inFlight
  {
    hide Next;
    if Next(p, e).inFlight != p.inFlight { RunMoves(p, e); }
  }

  /** While nothing drains, a request that starts a turn gives up the session. */
  lemma RouteGivesUp(p: Pool, path: Path, id: Id)
    requires Inv(p) && Has(TableOf(p.generations), id, Primary) && NoneIs(TableOf(p.generations), Draining)
    ensures RouteRequest(p, path).0.sessionOwnership ==
      if path.promptish && path.session.Some? then p.sessionOwnership - {path.session.value} else p.sessionOwnership
  {
    FindsOnly(p, id, Primary);
    OwnersAlone(p, id);
    TableFinds(p.generations, id);
    NobodyActive(p);
    hide Inv, TableOf, Find, FindId, NoneIs;
    if path.session.Some? && path.session.value !in p.sessionOwnership {
      assert p.sessionOwnership - {path.session.value} == p.sessionOwnership;
    }
  }

  lemma NobodyActive(p: Pool)
    requires Inv(p) && NoneIs(TableOf(p.generations), Draining)
    ensures p.activeSessions == map[] && p.pinnedRequests == map[]
  {
    hide TableOf, DistinctIds;
  }

  /** While nothing drains and the pool is not disposed, no tick and no disposal changes anything. */
  lemma TicksIdle(p: Pool, e: Event)
    requires Inv(p) && NoneIs(TableOf(p.generations), Draining) && !p.disposed
    requires e.EPollReturned? || e.EAbortsDone? || e.EDisposeNext?
    requires Fresh(p, e)
    ensures Next(p, e).sessionOwnership == p.sessionOwnership
  {
    var id := if e.EDisposeNext? then 0 else e.id;
    TicksOver(p, id);
    assert e.EPollReturned? ==> id !in p.polls;
    hide *;
    match e
    case EPollReturned(_, remaining, now) => NoPoll(p, id, remaining, now); IdleNext(p, e);
    case EAbortsDone(_) => DeadAborts(p, id); IdleNext(p, e);
    case EDisposeNext => NothingDisposed(p); IdleNext(p, e);
  }

  lemma IdleNext(p: Pool, e: Event)
    ensures e.EPollReturned? ==> Next(p, e) == PollReturned(p, e.id, e.remaining, e.now)
    ensures e.EAbortsDone? ==> Next(p, e) == AbortsDone(p, e.id)
    ensures e.EDisposeNext? ==> Next(p, e) == DisposeNext(p)
  {
    hide PollReturned, AbortsDone, DisposeNext;
  }

  lemma DeadAborts(p: Pool, id: Id)
    requires id in p.aborts ==> StatusOf(p.generations, id) == Dead
    ensures AbortsDone(p, id) == p.(aborts := p.aborts - multiset{id})
  {
    hide StatusOf;
  }

  lemma NothingDisposed(p: Pool)
    requires p.disposal == []
    ensures DisposeNext(p) == p
  {
    hide RetireStarted;
  }

  lemma TicksOver(p: Pool, id: Id)
    requires Inv(p) && NoneIs(TableOf(p.generations), Draining) && !p.disposed
    ensures StatusOf(p.generations, id) != Draining && p.disposal == []
    ensures id in p.polls || id in p.aborts ==> StatusOf(p.generations, id) == Dead
  {
    TableFinds(p.generations, id);
    hide TableOf, DistinctIds, Owners, Drained, ActiveOwned, Standbys, Continuations, WaiterBacked, Deadlines;
  }

  lemma AskingKnows(p: Pool, id: Id)
    requires Inv(p) && Serial(p) && p.inFlight.Some? && Committed(p.inFlight.value) && Captured(p.inFlight.value) == Some(Some(id))
    ensures Has(TableOf(p.generations), id, Primary) && NoneIs(TableOf(p.generations), Draining) && !p.disposed
  {
    hide TableOf, DistinctIds;
  }

  /** What one event adds to and takes from the sessions the lists gave. */
  function Gathered(owned: set<string>, e: Event, n: nat): set<string> {
    if e.ESurfaceListed? && n > 0 then owned + e.sessions
    else if e.ERoute? && e.path.promptish && e.path.session.Some? then owned - {e.path.session.value}
    else owned
  }

  lemma GatherStep(p: Pool, e: Event, id: Id, standby: Handle, sessions: set<string>, n: nat, requests: set<string>,
                   owned: set<string>)
    requires Inv(p) && Serial(p) && Fresh(p, e) && Gathers(p, id, standby, sessions, n, requests, owned)
    requires Next(p, e).inFlight.Some? && Next(p, e).inFlight.value.ListingRequests?
    ensures var taken := e.ESurfaceListed? && n > 0;
      Gathers(Next(p, e), id, standby, sessions, if taken then n - 1 else n,
              if taken then requests + e.requests else requests, Gathered(owned, e, n))
  {
    hide *;
    GatherKnows(p, id, standby, sessions, n, requests, owned);
    if e.ESurfaceListed? {
      SurfaceGathers(p, e, id, standby, sessions, n, requests, owned);
    } else {
      if e.EFlipped? {
        NoFlipAsking(p, e);
      } else {
        AskingStays(p, e);
        OthersOwn(p, e, id);
      }
      OthersGather(p, e, id, standby, sessions, n, requests, owned);
    }
  }

  lemma GatherKnows(p: Pool, id: Id, standby: Handle, sessions: set<string>, n: nat, requests: set<string>, owned: set<string>)
    requires Inv(p) && Serial(p) && Gathers(p, id, standby, sessions, n, requests, owned)
    ensures Has(TableOf(p.generations), id, Primary) && NoneIs(TableOf(p.generations), Draining) && !p.disposed
    ensures p.inFlight.Some? && p.inFlight.value.ListingRequests?
  {
    AskingKnows(p, id);
    hide Inv, TableOf, AllOf;
  }

  /** A flip would end the asking. */
  lemma NoFlipAsking(p: Pool, e: Event)
    requires p.inFlight.Some? && p.inFlight.value.ListingRequests?
    requires Next(p, e).inFlight.Some? && Next(p, e).inFlight.value.ListingRequests?
    ensures e.EFlipped? ==> Next(p, e) == p
  {
    if e.EFlipped? {
      if FlipReady(p) { FlipSettles(p, e.now); } else { FlipIdle(p, e.now); }
      hide Flipped;
    } else {
      hide Next;
    }
  }

  lemma OthersGather(p: Pool, e: Event, id: Id, standby: Handle, sessions: set<string>, n: nat, requests: set<string>,
                     owned: set<string>)
    requires Gathers(p, id, standby, sessions, n, requests, owned) && !e.ESurfaceListed?
    requires Next(p, e).inFlight == p.inFlight
    requires Next(p, e).sessionOwnership ==
      if e.ERoute? && e.path.promptish && e.path.session.Some? then p.sessionOwnership - {e.path.session.value}
      else p.sessionOwnership
    ensures Gathers(Next(p, e), id, standby, sessions, n, requests, Gathered(owned, e, n))
  {
    hide Next;
  }

  lemma SurfaceGathers(p: Pool, e: Event, id: Id, standby: Handle, sessions: set<string>, n: nat, requests: set<string>,
                       owned: set<string>)
    requires e.ESurfaceListed? && Gathers(p, id, standby, sessions, n, requests, owned)
    ensures Gathers(Next(p, e), id, standby, sessions, if n > 0 then n - 1 else n,
                    if n > 0 then requests + e.requests else requests, Gathered(owned, e, n))
  {
  }

  lemma OthersOwn(p: Pool, e: Event, id: Id)
    requires Inv(p) && Fresh(p, e) && !p.disposed
    requires Has(TableOf(p.generations), id, Primary) && NoneIs(TableOf(p.generations), Draining)
    requires !e.ESurfaceListed? && !e.EFlipped?
    ensures Next(p, e).sessionOwnership ==
      if e.ERoute? && e.path.promptish && e.path.session.Some? then p.sessionOwnership - {e.path.session.value}
      else p.sessionOwnership
  {
    if e.ERoute? {
      RouteGivesUp(p, e.path, id);
      hide RouteRequest;
    } else {
      hide Next, Inv, Fresh;
      if LeavesOwners(e) { OwnersLeft(p, e); } else { TicksIdle(p, e); }
    }
  }

  /** The sessions the lists gave, after these events. */
  ghost predicate SinceListed(owned: set<string>, events: seq<Event>, n: nat, given: set<string>) {
    forall s :: s in owned <==> ListedSince(events, n, s, s in given)
  }

  lemma SinceStep(owned: set<string>, events: seq<Event>, n: nat, given: set<string>)
    requires events != []
    requires var taken := events[0].ESurfaceListed? && n > 0;
      SinceListed(owned, events[1..], if taken then n - 1 else n, Gathered(given, events[0], n))
    ensures SinceListed(owned, events, n, given)
  {
    forall s ensures s in owned <==> ListedSince(events, n, s, s in given) {
      assert s in Gathered(given, events[0], n) <==>
        if events[0].ESurfaceListed? && n > 0 then s in given || s in events[0].sessions
        else s in given && !Starts(events[0], s);
    }
  }

  lemma {:induction false} RunGathers(p: Pool, events: seq<Event>, id: Id, standby: Handle, sessions: set<string>, n: nat,
                                      requests: set<string>, given: set<string>)
    returns (owned: set<string>, left: nat)
    requires Inv(p) && SerialRun(p, events) && AsksThrough(p, events)
    requires Gathers(p, id, standby, sessions, n, requests, given)
    ensures Gathers(After(p, events), id, standby, sessions, left, requests + ListedRequests(events, n), owned)
    ensures SinceListed(owned, events, n, given)
    decreases |events|
  {
    hide *;
    if events == [] {
      owned, left := given, n;
      NothingGathered(p, id, standby, sessions, n, requests, given);
    } else {
      var e := events[0];
      RunBegins(p, events);
      GatherStep(p, e, id, standby, sessions, n, requests, given);
      StepKeeps(p, e);
      ListedStep(events, n, requests);
      if e.ESurfaceListed? && n > 0 {
        owned, left := RunGathers(Next(p, e), events[1..], id, standby, sessions, n - 1, requests + e.requests,
                                  Gathered(given, e, n));
      } else {
        owned, left := RunGathers(Next(p, e), events[1..], id, standby, sessions, n, requests, Gathered(given, e, n));
      }
      SinceStep(owned, events, n, given);
    }
  }

  lemma NothingGathered(p: Pool, id: Id, standby: Handle, sessions: set<string>, n: nat, requests: set<string>,
                        given: set<string>)
    requires Gathers(p, id, standby, sessions, n, requests, given)
    ensures Gathers(After(p, []), id, standby, sessions, n, requests + ListedRequests([], n), given)
    ensures SinceListed(given, [], n, given)
  {
    assert requests + {} == requests;
  }

  lemma RunBegins(p: Pool, events: seq<Event>)
    requires SerialRun(p, events) && AsksThrough(p, events) && events != []
    ensures var q := Next(p, events[0]);
      && Serial(p) && Fresh(p, events[0]) && Serial(q) && SerialRun(q, events[1..]) && AsksThrough(q, events[1..])
      && q.inFlight.Some? && q.inFlight.value.ListingRequests? && After(p, events) == After(q, events[1..])
  {
    hide Serial, Fresh, Next;
  }

  lemma ListedStep(events: seq<Event>, n: nat, requests: set<string>)
    requires events != []
    ensures requests + ListedRequests(events, n) ==
      if events[0].ESurfaceListed? && n > 0 then requests + events[0].requests + ListedRequests(events[1..], n - 1)
      else requests + ListedRequests(events[1..], n)
  {
  }

  // ------------------------------------------------------------------ the flip

  /** The demoted engine drains until its deadline under its first poll, and the standby
      serves. */
  ghost predicate Demoted(p: Pool, q: Pool, id: Id, standby: Handle, now: int) {
    var t := TableOf(q.generations);
    && Has(t, id, Draining) && t[id].drainDeadline == Some(now + p.settings.drainTimeoutMs) && id in q.polls
    && Has(t, standby.id, Primary) && t[standby.id].endpoint == standby.endpoint && Points(q.config, standby.endpoint)
  }

  /** The demoted engine runs the sessions it reported, owns these and the listed ones in
      which no turn was started since, and answers the listed prompts; nobody else owns
      anything. */
  ghost predicate HandedOver(q: Pool, id: Id, sessions: set<string>, lists: seq<Event>) {
    && q.activeSessions == map[id := sessions]
    && (forall s, g :: Owns(q, g, s) <==> g == id && (s in sessions || ListedSince(lists, 4, s, false)))
    && (forall r, g :: Pinned(q, g, r) <==> g == id && r in ListedRequests(lists, 4))
  }

  lemma MonitorStarts(p: Pool, id: Id, now: int)
    requires StatusOf(StartDrainMonitor(p, id, now).generations, id) == Draining
    ensures id in StartDrainMonitor(p, id, now).polls
  {
    hide Assign, StatusOf;
  }

  lemma FlipPolls(p: Pool, now: int, id: Id)
    requires FlipReady(p) && p.inFlight.value.primary == Some(id)
    requires StatusOf(Flipped(p, now).generations, id) == Draining
    ensures id in Flipped(p, now).polls
  {
    var run := p.inFlight.value;
    hide Assign, StatusOf, PointedAt, AddOwner, FlippedList, StartDrainMonitor;
    MonitorStarts(Flip(p, run.standby, run.primary, run.sessions, run.requests), id, now);
  }

  lemma FlipsTable(t: Table, id: Id, standby: Handle, deadline: int)
    requires Has(t, id, Primary) && Has(t, standby.id, Starting) && t[standby.id].endpoint == standby.endpoint
    ensures var t' := FlippedTable(t, standby.id, Some(id), Some(deadline));
      && Has(t', id, Draining) && t'[id].drainDeadline == Some(deadline)
      && Has(t', standby.id, Primary) && t'[standby.id].endpoint == standby.endpoint
  {
  }

  lemma ReadyKnows(p: Pool, id: Id, standby: Handle)
    requires Inv(p) && FlipReady(p) && p.inFlight.value.primary == Some(id) && p.inFlight.value.standby == standby
    ensures var t := TableOf(p.generations);
      && DistinctIds(p.generations) && Has(t, id, Primary)
      && Has(t, standby.id, Starting) && t[standby.id].endpoint == standby.endpoint
  {
    hide TableOf, DistinctIds;
  }

  lemma FlipLists(p: Pool, now: int, id: Id, standby: Handle)
    requires DistinctIds(p.generations)
    requires FlipReady(p) && p.inFlight.value.primary == Some(id) && p.inFlight.value.standby == standby
    ensures var q := Flipped(p, now);
      && TableOf(q.generations) ==
           FlippedTable(TableOf(p.generations), standby.id, Some(id), Some(now + p.settings.drainTimeoutMs))
      && q.config == PointedAt(p.config, standby.endpoint)
  {
    FlipFields(p, now, id);
    hide Flipped, FlippedList, FlippedTable, TableOf, DistinctIds, PointedAt;
    FlippedListTable(p.generations, standby.id, Some(id), now + p.settings.drainTimeoutMs);
  }

  lemma FlipDemotes(p: Pool, now: int, id: Id, standby: Handle)
    requires Inv(p) && FlipReady(p) && p.inFlight.value.primary == Some(id) && p.inFlight.value.standby == standby
    ensures Demoted(p, Flipped(p, now), id, standby, now)
  {
    var q, t := Flipped(p, now), TableOf(p.generations);
    hide *;
    ReadyKnows(p, id, standby);
    FlipLists(p, now, id, standby);
    FlipsTable(t, id, standby, now + p.settings.drainTimeoutMs);
    DrainingStatus(q.generations, id);
    FlipPolls(p, now, id);
    PointsAt(p.config, standby.endpoint);
    Demotion(p, q, id, standby, now);
  }

  lemma Demotion(p: Pool, q: Pool, id: Id, standby: Handle, now: int)
    requires var t := TableOf(q.generations);
      && Has(t, id, Draining) && t[id].drainDeadline == Some(now + p.settings.drainTimeoutMs) && id in q.polls
      && Has(t, standby.id, Primary) && t[standby.id].endpoint == standby.endpoint && Points(q.config, standby.endpoint)
    ensures Demoted(p, q, id, standby, now)
  {
    hide TableOf, Points;
  }

  lemma DrainingStatus(gens: seq<Generation>, id: Id)
    requires Has(TableOf(gens), id, Draining)
    ensures StatusOf(gens, id) == Draining
  {
    TableFinds(gens, id);
  }

  lemma PointsAt(config: Config, endpoint: Endpoint)
    ensures Points(PointedAt(config, endpoint), endpoint)
  {
  }

  lemma FlipHands(p: Pool, now: int, id: Id, sessions: set<string>, owned: set<string>, lists: seq<Event>)
    requires FlipReady(p) && p.activeSessions == map[] && p.pinnedRequests == map[]
    requires p.inFlight.value.primary == Some(id) && p.inFlight.value.sessions == sessions
    requires p.inFlight.value.requests == ListedRequests(lists, 4)
    requires p.sessionOwnership == AllOf(owned, id) && SinceListed(owned, lists, 4, {})
    ensures HandedOver(Flipped(p, now), id, sessions, lists)
  {
    FlipFields(p, now, id);
    var q := Flipped(p, now);
    hide Flipped, ListedRequests, ListedSince, AddOwner, AllOf, HandedOver, SinceListed, FlipReady;
    OwnsAll(q, id, sessions, owned, lists);
  }

  lemma FlipFields(p: Pool, now: int, id: Id)
    requires FlipReady(p) && p.inFlight.value.primary == Some(id)
    ensures var q, run := Flipped(p, now), p.inFlight.value;
      && q.sessionOwnership == AddOwner(p.sessionOwnership, run.sessions, id)
      && q.pinnedRequests == AddOwner(p.pinnedRequests, run.requests, id)
      && q.activeSessions == p.activeSessions[id := run.sessions]
      && q.config == PointedAt(p.config, run.standby.endpoint)
      && q.generations == FlippedList(p.generations, run.standby.id, Some(id), now + p.settings.drainTimeoutMs)
  {
    FlippedOutcome(p, now);
    hide Flipped, FlippedList, PointedAt, AddOwner;
  }

  lemma OwnsAll(q: Pool, id: Id, sessions: set<string>, owned: set<string>, lists: seq<Event>)
    requires q.activeSessions == map[][id := sessions]
    requires q.sessionOwnership == AddOwner(AllOf(owned, id), sessions, id) && SinceListed(owned, lists, 4, {})
    requires q.pinnedRequests == AddOwner(map[], ListedRequests(lists, 4), id)
    ensures HandedOver(q, id, sessions, lists)
  {
    hide ListedRequests, ListedSince;
  }

  /** In every run, whatever happens while a rollover asks the primary it captured for its
      running sessions and its four prompt lists: the flip hands that engine exactly what
      was answered. */
  lemma RolloverHandsOver(p: Pool, sessions: set<string>, lists: seq<Event>, now: int, id: Id, standby: Handle)
    requires Inv(p) && p.inFlight == Some(ListingSessions(Some(id), standby))
    requires SerialRun(p, [ESessionsListed(sessions)] + lists)
    requires AsksThrough(Next(p, ESessionsListed(sessions)), lists)
    requires FlipReady(After(p, [ESessionsListed(sessions)] + lists))
    ensures var ready := After(p, [ESessionsListed(sessions)] + lists);
      Demoted(ready, Flipped(ready, now), id, standby, now) && HandedOver(Flipped(ready, now), id, sessions, lists)
  {
    var q := Next(p, ESessionsListed(sessions));
    assert ([ESessionsListed(sessions)] + lists)[1..] == lists;
    AskingBegins(p, sessions, id, standby);
    hide Next, AsksThrough, Inv, Flipped, Serial, Fresh, HandedOver, Demoted, ListedRequests, SinceListed, Gathers;
    var owned, left := RunGathers(q, lists, id, standby, sessions, 4, {}, {});
    RunKeeps(q, lists);
    hide SerialRun;
    assert After(p, [ESessionsListed(sessions)] + lists) == After(q, lists);
    hide After;
    ReadyHands(After(q, lists), now, id, standby, sessions, owned, left, lists);
  }

  lemma ReadyHands(p: Pool, now: int, id: Id, standby: Handle, sessions: set<string>, owned: set<string>, left: nat,
                   lists: seq<Event>)
    requires Inv(p) && Serial(p) && FlipReady(p)
    requires Gathers(p, id, standby, sessions, left, {} + ListedRequests(lists, 4), owned) && SinceListed(owned, lists, 4, {})
    ensures Demoted(p, Flipped(p, now), id, standby, now) && HandedOver(Flipped(p, now), id, sessions, lists)
  {
    hide Inv, Serial, Flipped, HandedOver, Demoted, ListedRequests, SinceListed, AllOf;
    AskingKnows(p, id);
    NobodyActive(p);
    FlipDemotes(p, now, id, standby);
    assert {} + ListedRequests(lists, 4) == ListedRequests(lists, 4);
    FlipHands(p, now, id, sessions, owned, lists);
  }

  lemma AskingBegins(p: Pool, sessions: set<string>, id: Id, standby: Handle)
    requires Inv(p) && p.inFlight == Some(ListingSessions(Some(id), standby))
    requires Serial(p) && Serial(Next(p, ESessionsListed(sessions)))
    ensures var q := Next(p, ESessionsListed(sessions));
      Inv(q) && Gathers(q, id, standby, sessions, 4, {}, {})
  {
    StepKeeps(p, ESessionsListed(sessions));
    AskingKnows(p, id);
    NoOwners(p);
    assert AllOf({}, id) == map[];
    hide Inv;
  }

  lemma NoOwners(p: Pool)
    requires Inv(p) && NoneIs(TableOf(p.generations), Draining) && p.inFlight.Some? && p.inFlight.value.ListingSessions?
    ensures p.sessionOwnership == map[]
  {
    hide TableOf, DistinctIds;
  }

  // --------------------------------------------------------------- afterwards

  /** ... and after the flip: as long as that engine's polls report a session it was running,
      all requests of the session go to it, and a reply to a prompt it listed does as long as
      it drains. */
  lemma HandedOverRoutes(q: Pool, later: seq<Event>, id: Id, sessions: set<string>, lists: seq<Event>, path: Path)
    requires Inv(q) && SerialRun(q, later) && HandedOver(q, id, sessions, lists)
    requires var r := After(q, later); StatusOf(r.generations, id) == Draining && Count(r.generations, Primary) == 1
    requires
      || (path.session.Some? && path.session.value in sessions &&
            forall e <- later :: e.EPollReturned? && e.id == id ==> path.session.value in e.remaining)
      || (path.request.Some? && path.request.value in ListedRequests(lists, 4))
    ensures var r := After(q, later); RouteRequest(r, path).1 == Some(Route(FindId(r.generations, id).value, None))
  {
    hide After, RouteRequest, Inv, SerialRun, Count, ListedRequests, ListedSince, StatusOf;
    if path.request.Some? && path.request.value in ListedRequests(lists, 4) {
      assert Pinned(q, id, path.request.value);
      PinnedWhileDraining(q, later, id, path.request.value);
      RunKeeps(q, later);
      PinnedReplyRoutes(After(q, later), path, path.request.value, id);
    } else {
      ReportedSessionRoutes(q, later, id, path.session.value, path);
    }
  }

  /** In every run from startup, from the answer that names the running sessions through the
      flip and beyond: requests of a session that runs on the old engine, and replies to the
      prompts it listed, reach the old engine. */
  lemma RolloverKeepsSessions(settings: Settings, config: Config, endpoint: Endpoint, fingerprint: string, at: int,
                              before: seq<Event>, sessions: set<string>, lists: seq<Event>, now: int, later: seq<Event>,
                              id: Id, standby: Handle, path: Path)
    requires SerialRun(Adopted(settings, config, endpoint, fingerprint, at), before)
    requires var p := After(Adopted(settings, config, endpoint, fingerprint, at), before);
      && p.inFlight == Some(ListingSessions(Some(id), standby))
      && SerialRun(p, [ESessionsListed(sessions)] + lists)
      && AsksThrough(Next(p, ESessionsListed(sessions)), lists)
      && FlipReady(After(p, [ESessionsListed(sessions)] + lists))
      && var q := Flipped(After(p, [ESessionsListed(sessions)] + lists), now);
      && SerialRun(q, later)
      && StatusOf(After(q, later).generations, id) == Draining && Count(After(q, later).generations, Primary) == 1
    requires
      || (path.session.Some? && path.session.value in sessions &&
            forall e <- later :: e.EPollReturned? && e.id == id ==> path.session.value in e.remaining)
      || (path.request.Some? && path.request.value in ListedRequests(lists, 4))
    ensures
      var p := After(Adopted(settings, config, endpoint, fingerprint, at), before);
      var r := After(Flipped(After(p, [ESessionsListed(sessions)] + lists), now), later);
      RouteRequest(r, path).1 == Some(Route(FindId(r.generations, id).value, None))
  {
    AdoptedInv(settings, config, endpoint, fingerprint, at);
    RunKeeps(Adopted(settings, config, endpoint, fingerprint, at), before);
    var p := After(Adopted(settings, config, endpoint, fingerprint, at), before);
    hide Adopted, AsksThrough, Inv, SerialRun, Serial, After, RouteRequest, Flipped, Count, ListedRequests, Next, StatusOf, FindId;
    RolloverHandsOver(p, sessions, lists, now, id, standby);
    var ready := After(p, [ESessionsListed(sessions)] + lists);
    RunKeeps(p, [ESessionsListed(sessions)] + lists);
    FlippedKeeps(ready, now);
    hide HandedOver, Demoted, FlipReady;
    HandedOverRoutes(Flipped(ready, now), later, id, sessions, lists, path);
  }
}
