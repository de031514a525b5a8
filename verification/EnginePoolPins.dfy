/** Where every request goes, and that the reply to a prompt reaches the engine that asked
    for as long as that engine drains. */
module EnginePoolPins {
  import opened Wrappers
  import opened EnginePoolFrames
  import opened EnginePoolModel
  import opened EnginePoolInvariants
  import opened EnginePoolLifecycle
  import opened EnginePoolTheorems
  import opened EnginePoolDrains

  // ------------------------------------------------------------- one request

  predicate Pinned(p: Pool, id: Id, request: string) {
    request in p.pinnedRequests && p.pinnedRequests[request] == id
  }

  /** The path names a session of this engine. */
  predicate NamesSession(p: Pool, path: Path, id: Id) {
    path.session.Some? && Owns(p, id, path.session.value)
  }

  /** The path starts a turn in a session of this engine that is not running there. */
  predicate StartsTurn(p: Pool, path: Path, id: Id) {
    path.promptish && path.session.Some? && !Active(p, id, path.session.value)
  }

  predicate NamesPrompt(p: Pool, path: Path, id: Id) {
    path.request.Some? && Pinned(p, id, path.request.value)
  }

  /** An engine keeps the requests of its sessions, but for the prompts that start a turn,
      and the replies to its prompts. */
  predicate Keeps(p: Pool, path: Path, id: Id) {
    (NamesSession(p, path, id) && !StartsTurn(p, path, id)) || NamesPrompt(p, path, id)
  }

  ghost function Listing(p: Pool, id: Id): Generation
    requires id in TableOf(p.generations)
  {
    TableOf(p.generations)[id]
  }

  /** While an engine drains beside the primary, every request goes to the engine that drains
      if that engine keeps it, with no fallback, and else to the primary, with the engine
      that drains as the fallback of exactly the legacy replies. Nothing changes but that a
      session loses its owner, exactly when a turn starts in it that is not running. */
  lemma RequestRoutes(p: Pool, path: Path, primary: Id, draining: Id)
    requires Inv(p) && Has(TableOf(p.generations), primary, Primary) && Has(TableOf(p.generations), draining, Draining)
    ensures var (q, route) := RouteRequest(p, path);
      && route == Some(if Keeps(p, path, draining) then Route(Listing(p, draining), None)
                       else Route(Listing(p, primary), if path.legacyReply then Some(Listing(p, draining)) else None))
      && q == p.(sessionOwnership :=
                   if NamesSession(p, path, draining) && StartsTurn(p, path, draining)
                   then p.sessionOwnership - {path.session.value} else p.sessionOwnership)
  {
    OwnersDrain(p, draining);
    TableFinds(p.generations, draining);
    FindsOnly(p, primary, Primary);
    FindsOnly(p, draining, Draining);
    hide Inv, TableOf, Find, FindId;
  }

  lemma FindsOnly(p: Pool, id: Id, status: Status)
    requires Inv(p) && Has(TableOf(p.generations), id, status) && (status.Primary? || status.Draining?)
    ensures Find(p.generations, status) == Some(TableOf(p.generations)[id])
  {
    PrimaryFound(p.generations);
    DrainingFound(p.generations);
    FoundInTable(p.generations, status);
    hide Find, TableOf, DistinctIds;
  }

  /** While nothing drains, every request goes to the primary, with no fallback. */
  lemma AloneRoutes(p: Pool, path: Path, primary: Id)
    requires Inv(p) && Has(TableOf(p.generations), primary, Primary) && NoneIs(TableOf(p.generations), Draining)
    ensures RouteRequest(p, path).1 == Some(Route(Listing(p, primary), None))
  {
    FindsOnly(p, primary, Primary);
    NobodyDrains(p);
    OwnersAlone(p, primary);
    TableFinds(p.generations, primary);
    hide Inv, TableOf, Find, FindId;
  }

  lemma NobodyDrains(p: Pool)
    requires NoneIs(TableOf(p.generations), Draining) && DistinctIds(p.generations)
    ensures Find(p.generations, Draining).None?
  {
    FoundInTable(p.generations, Draining);
    hide Find, TableOf, DistinctIds;
  }

  lemma OwnersAlone(p: Pool, primary: Id)
    requires Inv(p) && Has(TableOf(p.generations), primary, Primary) && NoneIs(TableOf(p.generations), Draining)
    ensures forall s <- p.sessionOwnership :: p.sessionOwnership[s] == primary
    ensures p.pinnedRequests == map[]
  {
    hide TableOf, DistinctIds;
  }

  // -------------------------------------------------------------- one event

  /** What an engine's event pins: exactly when the engine drains and the event is of one of
      its sessions, the requests the event carries are pinned to it. */
  lemma ForwardPins(p: Pool, id: Id, e: Payload, request: string, owner: Id)
    ensures Pinned(ForwardEvent(p, id, e).0, owner, request) <==>
      if StatusOf(p.generations, id) == Draining && OwnsSession(p, id, e) && request in e.requests then owner == id
      else Pinned(p, owner, request)
  {
    hide FindId, OwnsSession, OwnsRequest, ForeignSession, ForeignRequest;
  }

  // ------------------------------------------------------------- over runs

  /** The only events that touch the pins. */
  predicate OfPins(e: Event) {
    e.EFlipped? || e.EForward? || e.EPollReturned? || e.EAbortsDone? || e.EDisposeNext?
  }

  lemma PinsLeft(p: Pool, e: Event)
    requires !OfPins(e)
    ensures Next(p, e).pinnedRequests == p.pinnedRequests
  {
    if OfRun(e) {
      RunRolls(p, e);
      hide Next;
    } else {
      hide RouteRequest, Closed, Flip, Without, AddOwner, PrimaryId, Ids;
      match e
      case ERoute(path) => RouteTouchesOwners(p, path);
      case EClosed(id) => ClosedKeepsPins(p, id);
      case EReplacementRegistered => ReplacementTouches(p);
      case _ =>
    }
  }

  lemma ClosedKeepsPins(p: Pool, id: Id)
    ensures Closed(p, id).pinnedRequests == p.pinnedRequests
  {
    hide Without, Merge;
  }

  /** Retiring an engine takes its own pins away and no other's. */
  lemma RetirePinned(p: Pool, retired: Id, cause: Cause, id: Id, request: string)
    requires Pinned(p, id, request)
    ensures var q := RetireStarted(p, retired, cause);
      Pinned(q, id, request) || StatusOf(q.generations, id) == Dead
  {
    RetireActivity(p, retired, cause);
    hide StatusOf, Assign;
  }

  lemma PollPinned(p: Pool, polled: Id, remaining: set<string>, now: int, id: Id, request: string)
    requires Pinned(p, id, request)
    ensures var q := PollReturned(p, polled, remaining, now);
      Pinned(q, id, request) || StatusOf(q.generations, id) == Dead
  {
    hide RetireStarted, StatusOf, PastDeadline, UpdateActiveSessions;
    if polled in p.polls {
      UpdateTouches(p.(polls := p.polls - multiset{polled}), polled, remaining);
      var q := UpdateActiveSessions(p.(polls := p.polls - multiset{polled}), polled, remaining);
      if remaining == {} { RetirePinned(q, polled, Idle, id, request); }
    }
  }

  lemma LoudPinned(p: Pool, e: Event, id: Id, request: string)
    requires Pinned(p, id, request) && OfPins(e) && !FlipReady(p)
    requires e.EForward? && StatusOf(p.generations, e.id) == Draining ==> e.id == id
    ensures Pinned(Next(p, e), id, request) || StatusOf(Next(p, e).generations, id) == Dead
  {
    hide PollReturned, RetireStarted, Flipped, ForwardEvent, Pinned, FlipReady, StatusOf;
    match e
    case EFlipped(now) => FlipIdle(p, now);
    case EForward(g, payload) => ForwardPins(p, g, payload, request, id);
    case EPollReturned(polled, remaining, now) => PollPinned(p, polled, remaining, now, id, request);
    case EAbortsDone(g) =>
      if g in p.aborts { RetirePinnedAfter(p, p.(aborts := p.aborts - multiset{g}), g, Forced, id, request); }
    case EDisposeNext =>
      if p.disposal != [] {
        RetirePinnedAfter(p, p.(disposal := p.disposal[1..]), p.disposal[0], Shutdown, id, request);
      }
  }

  lemma RetirePinnedAfter(p: Pool, q: Pool, retired: Id, cause: Cause, id: Id, request: string)
    requires Pinned(p, id, request) && q.pinnedRequests == p.pinnedRequests
    ensures Pinned(RetireStarted(q, retired, cause), id, request) ||
            StatusOf(RetireStarted(q, retired, cause).generations, id) == Dead
  {
    RetirePinned(q, retired, cause, id, request);
  }

  lemma PinnedDrains(p: Pool, id: Id, request: string)
    requires Inv(p) && Pinned(p, id, request)
    ensures StatusOf(p.generations, id) == Draining && id < p.nextId && !FlipReady(p)
    ensures forall g | StatusOf(p.generations, g) == Draining :: g == id
  {
    forall g | StatusOf(p.generations, g) == Draining ensures g == id { TableFinds(p.generations, g); }
    TableFinds(p.generations, id);
    hide TableOf, DistinctIds, StatusOf;
  }

  /** A prompt stays pinned until its engine is retired. */
  lemma PinStep(p: Pool, e: Event, id: Id, request: string)
    requires Inv(p) && Pinned(p, id, request)
    ensures Pinned(Next(p, e), id, request) || StatusOf(Next(p, e).generations, id) == Dead
  {
    PinnedDrains(p, id, request);
    hide Inv, FlipReady, StatusOf;
    if OfPins(e) {
      LoudPinned(p, e, id, request);
    } else {
      PinsLeft(p, e);
      hide Next;
    }
  }

  /** In every run, a prompt pinned to an engine is pinned to it exactly as long as the
      engine drains. */
  lemma {:induction false} PinnedWhileDraining(p: Pool, events: seq<Event>, id: Id, request: string)
    requires Inv(p) && SerialRun(p, events) && Pinned(p, id, request)
    ensures Pinned(After(p, events), id, request) <==> StatusOf(After(p, events).generations, id) == Draining
    decreases |events|
  {
    PinnedDrains(p, id, request);
    if events != [] {
      var e, q := events[0], Next(p, events[0]);
      StepKeeps(p, e);
      PinStep(p, e, id, request);
      StepRetires(p, e, id);
      hide Inv, Serial, Fresh, Next, Pinned, StatusOf, Retired, FlipReady;
      if Pinned(q, id, request) {
        PinnedWhileDraining(q, events[1..], id, request);
      } else {
        RunUnpinned(q, events[1..], id, request);
      }
    }
  }

  lemma RunUnpinned(p: Pool, events: seq<Event>, id: Id, request: string)
    requires Inv(p) && SerialRun(p, events) && Retired(p, id)
    ensures StatusOf(After(p, events).generations, id) == Dead && !Pinned(After(p, events), id, request)
  {
    RunRetired(p, events, id, "");
    RunKeeps(p, events);
    hide After, SerialRun, Retired;
    if Pinned(After(p, events), id, request) { PinnedDrains(After(p, events), id, request); }
  }

  /** The reply to a pinned prompt goes to the engine that asked, whatever session the path
      names, with no fallback. */
  lemma PinnedReplyRoutes(p: Pool, path: Path, request: string, id: Id)
    requires Inv(p) && Count(p.generations, Primary) == 1
    requires Pinned(p, id, request) && path.request == Some(request)
    ensures StatusOf(p.generations, id) == Draining
    ensures RouteRequest(p, path).1 == Some(Route(FindId(p.generations, id).value, None))
  {
    PinnedDrains(p, id, request);
    TableFinds(p.generations, id);
    var a := SomePrimary(p);
    RequestRoutes(p, path, a, id);
    hide RouteRequest, TableOf, FindId, Inv;
  }

  lemma SomePrimary(p: Pool) returns (primary: Id)
    requires Inv(p) && Count(p.generations, Primary) == 1
    ensures Has(TableOf(p.generations), primary, Primary)
  {
    CountTable(p.generations, Primary);
    hide TableOf;
    primary :| primary in TableOf(p.generations) && TableOf(p.generations)[primary].status == Primary;
  }

  /** In every run from startup: a request id that an event of a draining engine carried,
      about a session of that engine, is answered by that engine as long as it drains. */
  lemma ForwardedPromptRoutes(settings: Settings, config: Config, endpoint: Endpoint, fingerprint: string, now: int,
                              before: seq<Event>, later: seq<Event>, id: Id, payload: Payload, request: string, path: Path)
    requires var p := After(Adopted(settings, config, endpoint, fingerprint, now), before);
      && SerialRun(Adopted(settings, config, endpoint, fingerprint, now), before)
      && SerialRun(p, [EForward(id, payload)] + later)
      && StatusOf(p.generations, id) == Draining && OwnsSession(p, id, payload) && request in payload.requests
    requires var q := After(After(Adopted(settings, config, endpoint, fingerprint, now), before), [EForward(id, payload)] + later);
      StatusOf(q.generations, id) == Draining && Count(q.generations, Primary) == 1 && path.request == Some(request)
    ensures var q := After(After(Adopted(settings, config, endpoint, fingerprint, now), before), [EForward(id, payload)] + later);
      RouteRequest(q, path).1 == Some(Route(FindId(q.generations, id).value, None))
  {
    var start := Adopted(settings, config, endpoint, fingerprint, now);
    AdoptedInv(settings, config, endpoint, fingerprint, now);
    RunKeeps(start, before);
    var p := After(start, before);
    ForwardPins(p, id, payload, request, id);
    assert ([EForward(id, payload)] + later)[1..] == later;
    hide Adopted, ForwardEvent, StatusOf, OwnsSession, Pinned, Inv, RouteRequest;
    PinnedFrom(p, EForward(id, payload), later, id, request, path);
  }

  /** A prompt pinned by one event is answered by its engine ever after. */
  lemma PinnedFrom(p: Pool, e: Event, later: seq<Event>, id: Id, request: string, path: Path)
    requires Inv(p) && SerialRun(p, [e] + later) && Pinned(Next(p, e), id, request) && path.request == Some(request)
    requires var q := After(p, [e] + later); StatusOf(q.generations, id) == Draining && Count(q.generations, Primary) == 1
    ensures var q := After(p, [e] + later); RouteRequest(q, path).1 == Some(Route(FindId(q.generations, id).value, None))
  {
    assert ([e] + later)[0] == e && ([e] + later)[1..] == later;
    assert After(p, [e] + later) == After(Next(p, e), later);
    assert SerialRun(Next(p, e), later) && Serial(p) && Fresh(p, e) && Serial(Next(p, e));
    StepKeeps(p, e);
    hide Next, Serial, Fresh, Inv, RouteRequest, Pinned, StatusOf, After, SerialRun;
    PinnedWhileDraining(Next(p, e), later, id, request);
    RunKeeps(Next(p, e), later);
    PinnedReplyRoutes(After(Next(p, e), later), path, request, id);
  }
}
