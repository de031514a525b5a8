/** The blue/green engine pool (apps/server/src/engine-pool.ts) as a state machine.

    The server is single threaded, so the code between two awaits runs without
    interruption. Every such segment is one event of the machine; an event carries
    the answer the awaited hook gave (a spawn, a busy probe, a session list, the
    clock). `Next` is total: an event whose continuation is not suspended leaves
    the pool as it is. */
module EnginePoolModel {
  import opened Wrappers

  /** A generation's UUID. Freshness of `randomUUID` is modelled by a counter. */
  type Id = nat

  datatype Status = Starting | Primary | Draining | Dead

  /** Where an engine listens and how to authenticate to it. */
  datatype Endpoint = Endpoint(url: string, username: string, password: string)

  datatype Generation = Generation(
    id: Id, endpoint: Endpoint, status: Status, fingerprint: string, drainDeadline: Option<int>)

  /** A reference to a generation object, as a suspended continuation holds it. */
  datatype Handle = Handle(id: Id, endpoint: Endpoint)

  datatype Workspace = Workspace(id: string, remote: bool, path: string, endpoint: Endpoint, directory: string)

  /** The part of the shared server config that decides where requests go. */
  datatype Config = Config(endpoint: Endpoint, workspaces: seq<Workspace>)

  datatype Settings = Settings(drainTimeoutMs: int, minSpawnIntervalMs: int)

  datatype Request = Request(
    reason: string, workspace: string, manual: bool, awaitPostRefreshSync: bool, forceStandby: bool)

  /** The continuation of the one rollover that may be in flight. `primary` is the
      generation captured when the run read the fingerprint. */
  datatype Run =
    | Preparing(request: Request)
    | ProbingBusy(request: Request, fingerprint: string, primary: Option<Id>)
    | Reloading(fingerprint: string, primary: Option<Id>)
    | AwaitingDrain(request: Request, resumed: bool)
    | Spawning(fingerprint: string, primary: Option<Id>)
    | CheckingHealth(primary: Option<Id>, standby: Handle)
    | ClosingStandby
    | Registering(primary: Option<Id>, standby: Handle)
    | ListingSessions(primary: Option<Id>, standby: Handle)
    | ListingRequests(primary: Option<Id>, standby: Handle,
                      sessions: set<string>, requests: set<string>, surfaces: nat)
    | Settled

  /** The continuation of a dead-primary recovery. */
  datatype Recovery =
    | ClosingOld(previous: Id)
    | SpawningReplacement
    | CheckingReplacement(endpoint: Endpoint)
    | RegisteringReplacement(replacement: Handle)

  datatype Cause = Idle | Forced | Shutdown

  datatype Pool = Pool(
    settings: Settings,
    config: Config,
    generations: seq<Generation>,
    inFlight: Option<Run>,
    pending: Option<Request>,
    lastSpawnAt: int,
    disposed: bool,
    sessionOwnership: map<string, Id>,
    pinnedRequests: map<string, Id>,
    activeSessions: map<Id, set<string>>,
    polls: multiset<Id>,              // drain ticks awaiting a session list
    aborts: multiset<Id>,             // drain ticks aborting the remaining sessions
    closing: map<Id, Cause>,          // retirements awaiting the engine's close
    recovery: Option<Recovery>,
    disposal: seq<Id>,                // generations disposeAll still has to retire
    nextId: Id)

  /** What a request path says to the router: the session in it, the prompt request
      it answers, whether it starts a turn, whether it is a legacy prompt reply. */
  datatype Path = Path(session: Option<string>, request: Option<string>, promptish: bool, legacyReply: bool)

  datatype Route = Route(target: Generation, fallback: Option<Generation>)

  /** The session and request ids found anywhere in an engine event. */
  datatype Payload = Payload(sessions: set<string>, requests: set<string>)

  // ---------------------------------------------------------------- the list

  /** `generations.find(entry => entry.status === status)`. */
  function Find(gens: seq<Generation>, status: Status): (r: Option<Generation>)
    ensures r.Some? ==> r.value in gens && r.value.status == status
    ensures r.None? ==> forall g <- gens :: g.status != status
  {
    if gens == [] then None
    else if gens[0].status == status then Some(gens[0])
    else Find(gens[1..], status)
  }

  /** `generations.find(entry => entry.id === id)`. */
  function FindId(gens: seq<Generation>, id: Id): (r: Option<Generation>)
    ensures r.Some? ==> r.value in gens && r.value.id == id
    ensures r.None? ==> forall g <- gens :: g.id != id
  {
    if gens == [] then None
    else if gens[0].id == id then Some(gens[0])
    else FindId(gens[1..], id)
  }

  predicate Routable(g: Generation) {
    g.status == Primary || g.status == Draining
  }

  /** `generationForId`: the routable generation with this id. */
  function GenerationFor(gens: seq<Generation>, id: Option<Id>): (r: Option<Generation>)
    ensures r.Some? ==> id == Some(r.value.id) && r.value in gens && Routable(r.value)
  {
    if id.None? then None
    else
      var g := FindId(gens, id.value);
      if g.Some? && Routable(g.value) then g else None
  }

  /** A generation that left the list is dead to every lookup. */
  function StatusOf(gens: seq<Generation>, id: Id): Status {
    var g := FindId(gens, id);
    if g.Some? then g.value.status else Dead
  }

  function PrimaryId(gens: seq<Generation>): Option<Id> {
    var g := Find(gens, Primary);
    if g.Some? then Some(g.value.id) else None
  }

  /** In-place assignment to the generation object with this id. */
  function Assign(gens: seq<Generation>, id: Id, status: Status, deadline: Option<int>): (r: seq<Generation>)
    ensures |r| == |gens|
    ensures forall i | 0 <= i < |gens| ::
      r[i] == (if gens[i].id == id then gens[i].(status := status, drainDeadline := deadline) else gens[i])
  {
    seq(|gens|, i requires 0 <= i < |gens| =>
      if gens[i].id == id then gens[i].(status := status, drainDeadline := deadline) else gens[i])
  }

  function Fingerprinted(gens: seq<Generation>, id: Id, fingerprint: string): (r: seq<Generation>)
    ensures |r| == |gens|
    ensures forall i | 0 <= i < |gens| ::
      r[i] == (if gens[i].id == id then gens[i].(fingerprint := fingerprint) else gens[i])
  {
    seq(|gens|, i requires 0 <= i < |gens| =>
      if gens[i].id == id then gens[i].(fingerprint := fingerprint) else gens[i])
  }

  /** `generations.filter(entry => entry.id !== id)`. */
  function Without(gens: seq<Generation>, id: Id): seq<Generation> {
    if gens == [] then []
    else (if gens[0].id == id then [] else [gens[0]]) + Without(gens[1..], id)
  }

  function DropOwner(owners: map<string, Id>, id: Id): map<string, Id> {
    map k | k in owners && owners[k] != id :: owners[k]
  }

  function AddOwner(owners: map<string, Id>, keys: set<string>, id: Id): map<string, Id> {
    owners + map k | k in keys :: id
  }

  // ------------------------------------------------------- routing and events

  /** routeRequest: the route, and the ownership map it leaves behind. */
  function RouteRequest(p: Pool, path: Path): (Pool, Option<Route>) {
    var primary := Find(p.generations, Primary);
    if primary.None? then (p, None)
    else
      var owner := if path.session.Some? && path.session.value in p.sessionOwnership
                   then GenerationFor(p.generations, Some(p.sessionOwnership[path.session.value])) else None;
      if owner.Some? && !(path.promptish && !Active(p, owner.value.id, path.session.value)) then
        (p, Some(Route(owner.value, None)))
      else
        var q := if owner.Some? then p.(sessionOwnership := p.sessionOwnership - {path.session.value}) else p;
        var pin := if path.request.Some? && path.request.value in p.pinnedRequests
                   then GenerationFor(p.generations, Some(p.pinnedRequests[path.request.value])) else None;
        if pin.Some? then (q, Some(Route(pin.value, None)))
        else (q, Some(Route(primary.value, if path.legacyReply then Find(p.generations, Draining) else None)))
  }

  predicate Active(p: Pool, id: Id, session: string) {
    id in p.activeSessions && session in p.activeSessions[id]
  }

  predicate OwnsSession(p: Pool, id: Id, e: Payload) {
    exists s <- e.sessions :: s in p.sessionOwnership && p.sessionOwnership[s] == id
  }

  predicate OwnsRequest(p: Pool, id: Id, e: Payload) {
    exists r <- e.requests :: r in p.pinnedRequests && p.pinnedRequests[r] == id
  }

  predicate ForeignSession(p: Pool, id: Id, e: Payload) {
    exists s <- e.sessions :: s in p.sessionOwnership && p.sessionOwnership[s] != id
  }

  predicate ForeignRequest(p: Pool, id: Id, e: Payload) {
    exists r <- e.requests :: r in p.pinnedRequests && p.pinnedRequests[r] != id
  }

  /** shouldForwardEvent: the verdict, and the pins a draining engine's event leaves. */
  function ForwardEvent(p: Pool, id: Id, e: Payload): (Pool, bool) {
    var g := GenerationFor(p.generations, Some(id));
    if g.None? then (p, false)
    else if g.value.status == Draining then
      var q := if OwnsSession(p, id, e) then p.(pinnedRequests := AddOwner(p.pinnedRequests, e.requests, id)) else p;
      (q, OwnsSession(p, id, e) || OwnsRequest(q, id, e))
    else
      (p, !ForeignSession(p, id, e) && !ForeignRequest(p, id, e))
  }

  // --------------------------------------------------------- rollover segments

  /** The pending slot after a request met a run in flight: latest wins, flags stick. */
  function Merge(request: Request, pending: Option<Request>): Request {
    if pending.None? then request
    else request.(
      manual := request.manual || pending.value.manual,
      awaitPostRefreshSync := request.awaitPostRefreshSync || pending.value.awaitPostRefreshSync,
      forceStandby := request.forceStandby || pending.value.forceStandby)
  }

  function RequestRollover(p: Pool, request: Request): Pool {
    if p.disposed then p
    else if p.inFlight.Some? then p.(pending := Some(Merge(request, p.pending)))
    else p.(inFlight := Some(Preparing(request)))
  }

  /** The config file is written and the fingerprint read. */
  function Prepared(p: Pool, fingerprint: string, now: int): Pool {
    if !(p.inFlight.Some? && p.inFlight.value.Preparing?) then p
    else
      var request := p.inFlight.value.request;
      var primary := Find(p.generations, Primary);
      if !request.manual && primary.Some? && primary.value.fingerprint == fingerprint then
        p.(inFlight := Some(Settled))
      else if request.forceStandby then
        Decide(p, request, fingerprint, PrimaryId(p.generations), now)
      else
        p.(inFlight := Some(ProbingBusy(request, fingerprint, PrimaryId(p.generations))))
  }

  function BusyKnown(p: Pool, busy: bool, now: int): Pool {
    if !(p.inFlight.Some? && p.inFlight.value.ProbingBusy?) then p
    else
      var run := p.inFlight.value;
      if busy then Decide(p, run.request, run.fingerprint, run.primary, now)
      else p.(inFlight := Some(Reloading(run.fingerprint, run.primary)))
  }

  /** The engine counts as busy: wait, park, throttle or spawn a standby. */
  function Decide(p: Pool, request: Request, fingerprint: string, primary: Option<Id>, now: int): Pool {
    if Find(p.generations, Draining).Some? then
      if request.forceStandby then p.(inFlight := Some(AwaitingDrain(request, false)))
      else p.(pending := Some(request), inFlight := Some(Settled))
    else if !request.manual && !request.forceStandby && now - p.lastSpawnAt < p.settings.minSpawnIntervalMs then
      p.(pending := Some(request), inFlight := Some(Settled))
    else
      p.(lastSpawnAt := now, inFlight := Some(Spawning(fingerprint, primary)))
  }

  function Reloaded(p: Pool, ok: bool): Pool {
    if !(p.inFlight.Some? && p.inFlight.value.Reloading?) then p
    else
      var run := p.inFlight.value;
      p.(inFlight := Some(Settled),
         generations := if ok && run.primary.Some? then Fingerprinted(p.generations, run.primary.value, run.fingerprint)
                        else p.generations)
  }

  function DrainResumed(p: Pool): Pool {
    if !(p.inFlight.Some? && p.inFlight.value.AwaitingDrain? && p.inFlight.value.resumed) then p
    else if p.disposed then p.(inFlight := Some(Settled))
    else p.(inFlight := Some(Preparing(p.inFlight.value.request)))
  }

  function Spawned(p: Pool, handle: Option<Endpoint>): Pool {
    if !(p.inFlight.Some? && p.inFlight.value.Spawning?) then p
    else if handle.None? then p.(inFlight := Some(Settled))
    else
      var run := p.inFlight.value;
      p.(generations := p.generations + [Generation(p.nextId, handle.value, Starting, run.fingerprint, None)],
         inFlight := Some(CheckingHealth(run.primary, Handle(p.nextId, handle.value))),
         nextId := p.nextId + 1)
  }

  function HealthKnown(p: Pool, healthy: bool): Pool {
    if !(p.inFlight.Some? && p.inFlight.value.CheckingHealth?) then p
    else
      var run := p.inFlight.value;
      if healthy then p.(inFlight := Some(Registering(run.primary, run.standby)))
      else p.(generations := Without(p.generations, run.standby.id), inFlight := Some(ClosingStandby))
  }

  function StandbyClosed(p: Pool): Pool {
    if p.inFlight == Some(ClosingStandby) then p.(inFlight := Some(Settled)) else p
  }

  function Registered(p: Pool): Pool {
    if !(p.inFlight.Some? && p.inFlight.value.Registering?) then p
    else p.(inFlight := Some(ListingSessions(p.inFlight.value.primary, p.inFlight.value.standby)))
  }

  /** nonIdleSessionIds(primary) answered; nothing is asked when there is no primary. */
  function SessionsListed(p: Pool, sessions: set<string>): Pool {
    if !(p.inFlight.Some? && p.inFlight.value.ListingSessions?) then p
    else
      var run := p.inFlight.value;
      p.(inFlight := Some(
           if run.primary.Some? then ListingRequests(run.primary, run.standby, sessions, {}, 4)
           else ListingRequests(run.primary, run.standby, {}, {}, 0)))
  }

  /** One of the four prompt lists of pendingRequestIds answered (or failed: both sets
      empty). Sessions named by the records become owned by the old primary at once. */
  function SurfaceListed(p: Pool, requests: set<string>, sessions: set<string>): Pool {
    if !(p.inFlight.Some? && p.inFlight.value.ListingRequests?) then p
    else
      var run := p.inFlight.value;
      if run.surfaces == 0 || run.primary.None? then p
      else p.(sessionOwnership := AddOwner(p.sessionOwnership, sessions, run.primary.value),
              inFlight := Some(run.(requests := run.requests + requests, surfaces := run.surfaces - 1)))
  }

  predicate FlipReady(p: Pool) {
    p.inFlight.Some? && p.inFlight.value.ListingRequests? && p.inFlight.value.surfaces == 0
  }

  /** All lists are in: flip traffic and start watching the old primary drain. */
  function Flipped(p: Pool, now: int): Pool {
    if !FlipReady(p) then p
    else
      var run := p.inFlight.value;
      var q := Flip(p, run.standby, run.primary, run.sessions, run.requests);
      (if run.primary.Some? then StartDrainMonitor(q, run.primary.value, now) else q)
      .(inFlight := Some(Settled))
  }

  /** flip: promote `next`, demote `previous`, hand it its sessions and prompts, and
      point the config and every local workspace at `next`. */
  function Flip(p: Pool, next: Handle, previous: Option<Id>, sessions: set<string>, requests: set<string>): Pool {
    var gens := Assign(p.generations, next.id, Primary, None);
    var demoted := if previous.Some? then Assign(gens, previous.value, Draining, None) else gens;
    var q := p.(generations := demoted, config := PointedAt(p.config, next.endpoint));
    if previous.None? then q
    else q.(activeSessions := p.activeSessions[previous.value := sessions],
            sessionOwnership := AddOwner(p.sessionOwnership, sessions, previous.value),
            pinnedRequests := AddOwner(p.pinnedRequests, requests, previous.value))
  }

  function PointedAt(config: Config, endpoint: Endpoint): Config {
    Config(endpoint, seq(|config.workspaces|, i requires 0 <= i < |config.workspaces| =>
      var w := config.workspaces[i];
      if w.remote then w else w.(endpoint := endpoint, directory := w.path)))
  }

  /** The finally block of requestRollover: release the lock and run what was pending. */
  function Settle(p: Pool): Pool {
    if p.inFlight != Some(Settled) then p
    else
      var q := p.(inFlight := None, pending := None);
      if p.pending.Some? && !p.disposed then RequestRollover(q, p.pending.value) else q
  }

  // ------------------------------------------------------------ drain segments

  /** startDrainMonitor: set the deadline and run the first tick up to its await. */
  function StartDrainMonitor(p: Pool, id: Id, now: int): Pool {
    TickStarted(
      p.(generations := Assign(p.generations, id, StatusOf(p.generations, id), Some(now + p.settings.drainTimeoutMs))),
      id)
  }

  function TickStarted(p: Pool, id: Id): Pool {
    if StatusOf(p.generations, id) != Draining then p else p.(polls := p.polls + multiset{id})
  }

  /** A drain tick resumes with the draining engine's non-idle sessions. The code does
      not look at the generation's status again here. */
  function PollReturned(p: Pool, id: Id, remaining: set<string>, now: int): Pool {
    if id !in p.polls then p
    else
      var q := UpdateActiveSessions(p.(polls := p.polls - multiset{id}), id, remaining);
      if remaining == {} then RetireStarted(q, id, Idle)
      else if PastDeadline(p, id, now) then q.(aborts := q.aborts + multiset{id})
      else q
  }

  predicate PastDeadline(p: Pool, id: Id, now: int) {
    var g := FindId(p.generations, id);
    g.Some? && g.value.drainDeadline.Some? && g.value.drainDeadline.value <= now
  }

  function UpdateActiveSessions(p: Pool, id: Id, sessions: set<string>): Pool {
    p.(activeSessions := p.activeSessions[id := sessions],
       sessionOwnership := AddOwner(
         map s | s in p.sessionOwnership && !(p.sessionOwnership[s] == id && s !in sessions) :: p.sessionOwnership[s],
         sessions, id))
  }

  /** The remaining sessions were aborted and given time to unwind. */
  function AbortsDone(p: Pool, id: Id): Pool {
    if id !in p.aborts then p else RetireStarted(p.(aborts := p.aborts - multiset{id}), id, Forced)
  }

  /** retire up to its first await: the generation is dead and owns nothing. */
  function RetireStarted(p: Pool, id: Id, cause: Cause): Pool {
    if StatusOf(p.generations, id) == Dead then p
    else p.(generations := Assign(p.generations, id, Dead, None),
            activeSessions := p.activeSessions - {id},
            sessionOwnership := DropOwner(p.sessionOwnership, id),
            pinnedRequests := DropOwner(p.pinnedRequests, id),
            closing := p.closing[id := cause])
  }

  /** retire after the engine closed: leave the list, wake every drain waiter, and
      resume a pending rollover when none is in flight. */
  function Closed(p: Pool, id: Id): Pool {
    if id !in p.closing then p
    else
      var q := p.(generations := Without(p.generations, id),
                  closing := p.closing - {id},
                  inFlight := if p.inFlight.Some? && p.inFlight.value.AwaitingDrain?
                              then Some(p.inFlight.value.(resumed := true)) else p.inFlight);
      if ResumesPending(p, id) then RequestRollover(q.(pending := None), p.pending.value) else q
  }

  predicate ResumesPending(p: Pool, id: Id)
    requires id in p.closing
  {
    p.closing[id] != Shutdown && p.pending.Some? && p.inFlight.None? && !p.disposed
  }

  // -------------------------------------------------- recovery and disposal

  function RecoveryStarted(p: Pool): Pool {
    if p.disposed || p.recovery.Some? then p
    else
      var primary := PrimaryId(p.generations);
      p.(recovery := Some(if primary.Some? then ClosingOld(primary.value) else SpawningReplacement))
  }

  /** The dead primary's process closed (or refused to: recovery gives up). */
  function OldClosed(p: Pool, ok: bool): Pool {
    if !(p.recovery.Some? && p.recovery.value.ClosingOld?) then p
    else if !ok then p.(recovery := None)
    else p.(generations := Without(p.generations, p.recovery.value.previous), recovery := Some(SpawningReplacement))
  }

  function ReplacementSpawned(p: Pool, handle: Option<Endpoint>): Pool {
    if p.recovery != Some(SpawningReplacement) then p
    else p.(recovery := if handle.Some? then Some(CheckingReplacement(handle.value)) else None)
  }

  function ReplacementChecked(p: Pool, healthy: bool, fingerprint: string): Pool {
    if !(p.recovery.Some? && p.recovery.value.CheckingReplacement?) then p
    else if !healthy then p.(recovery := None)
    else p.(generations := p.generations + [Generation(p.nextId, p.recovery.value.endpoint, Starting, fingerprint, None)],
            recovery := Some(RegisteringReplacement(Handle(p.nextId, p.recovery.value.endpoint))),
            nextId := p.nextId + 1)
  }

  function ReplacementRegistered(p: Pool): Pool {
    if !(p.recovery.Some? && p.recovery.value.RegisteringReplacement?) then p
    else Flip(p, p.recovery.value.replacement, None, {}, {}).(recovery := None)
  }

  /** disposeAll up to its first await: draining generations are retired first. A later
      call retires whatever the list holds by then. */
  function DisposeStarted(p: Pool): Pool {
    p.(disposed := true, pending := None,
       disposal := p.disposal + Ids(p.generations, true) + Ids(p.generations, false))
  }

  /** The ids of the draining (or the other) generations, in list order. */
  function Ids(gens: seq<Generation>, draining: bool): (r: seq<Id>)
    ensures forall g <- gens :: (g.status == Draining) == draining ==> g.id in r
  {
    if gens == [] then []
    else (if (gens[0].status == Draining) == draining then [gens[0].id] else []) + Ids(gens[1..], draining)
  }

  function DisposeNext(p: Pool): Pool {
    if p.disposal == [] then p
    else RetireStarted(p.(disposal := p.disposal[1..]), p.disposal[0], Shutdown)
  }

  function DisposeEnded(p: Pool): Pool {
    if p.disposed && p.disposal == [] then p.(generations := []) else p
  }

  // ----------------------------------------------------------------- the runs

  datatype Event =
    | ERequest(request: Request)
    | EPrepared(fingerprint: string, now: int)
    | EBusyKnown(busy: bool, now: int)
    | EReloaded(ok: bool)
    | EDrainResumed
    | ESpawned(handle: Option<Endpoint>)
    | EHealthKnown(healthy: bool)
    | EStandbyClosed
    | ERegistered
    | ESessionsListed(sessions: set<string>)
    | ESurfaceListed(requests: set<string>, sessions: set<string>)
    | EFlipped(now: int)
    | ESettle
    | ETickStarted(id: Id)
    | EPollReturned(id: Id, remaining: set<string>, now: int)
    | EAbortsDone(id: Id)
    | EClosed(id: Id)
    | ERoute(path: Path)
    | EForward(id: Id, payload: Payload)
    | ERecoveryStarted
    | EOldClosed(ok: bool)
    | EReplacementSpawned(handle: Option<Endpoint>)
    | EReplacementChecked(healthy: bool, fingerprint: string)
    | EReplacementRegistered
    | EDisposeStarted
    | EDisposeNext
    | EDisposeEnded

  function Next(p: Pool, e: Event): Pool {
    match e
    case ERequest(request) => RequestRollover(p, request)
    case EPrepared(fingerprint, now) => Prepared(p, fingerprint, now)
    case EBusyKnown(busy, now) => BusyKnown(p, busy, now)
    case EReloaded(ok) => Reloaded(p, ok)
    case EDrainResumed => DrainResumed(p)
    case ESpawned(handle) => Spawned(p, handle)
    case EHealthKnown(healthy) => HealthKnown(p, healthy)
    case EStandbyClosed => StandbyClosed(p)
    case ERegistered => Registered(p)
    case ESessionsListed(sessions) => SessionsListed(p, sessions)
    case ESurfaceListed(requests, sessions) => SurfaceListed(p, requests, sessions)
    case EFlipped(now) => Flipped(p, now)
    case ESettle => Settle(p)
    case ETickStarted(id) => TickStarted(p, id)
    case EPollReturned(id, remaining, now) => PollReturned(p, id, remaining, now)
    case EAbortsDone(id) => AbortsDone(p, id)
    case EClosed(id) => Closed(p, id)
    case ERoute(path) => RouteRequest(p, path).0
    case EForward(id, payload) => ForwardEvent(p, id, payload).0
    case ERecoveryStarted => RecoveryStarted(p)
    case EOldClosed(ok) => OldClosed(p, ok)
    case EReplacementSpawned(handle) => ReplacementSpawned(p, handle)
    case EReplacementChecked(healthy, fingerprint) => ReplacementChecked(p, healthy, fingerprint)
    case EReplacementRegistered => ReplacementRegistered(p)
    case EDisposeStarted => DisposeStarted(p)
    case EDisposeNext => DisposeNext(p)
    case EDisposeEnded => DisposeEnded(p)
  }

  /** A freshly constructed pool. */
  function Empty(settings: Settings, config: Config): Pool {
    Pool(settings, config, [], None, None, 0, false, map[], map[], map[],
         multiset{}, multiset{}, map[], None, [], 0)
  }

  /** adoptPrimary: the engine spawned at startup becomes the first generation. */
  function Adopt(p: Pool, endpoint: Endpoint, fingerprint: string, now: int): Pool {
    p.(generations := p.generations + [Generation(p.nextId, endpoint, Primary, fingerprint, None)],
       lastSpawnAt := now, nextId := p.nextId + 1)
  }

  /** The pool after a sequence of events. */
  function After(p: Pool, events: seq<Event>): Pool
    decreases |events|
  {
    if events == [] then p else After(Next(p, events[0]), events[1..])
  }
}
