/** How whole rollovers and recoveries end, and what each drain poll, retirement and disposal
    leaves behind. */
module EnginePoolOutcomes {
  import opened Wrappers
  import opened EnginePoolFrames
  import opened EnginePoolModel
  import opened EnginePoolInvariants
  import opened EnginePoolLifecycle
  import opened EnginePoolTheorems
  import opened EnginePoolDrains
  import opened EnginePoolOverlaps
  import opened EnginePoolPins
  import opened EnginePoolHandover

  // -------------------------------------------------------- a whole rollover

  /** What a rollover is answered at each of its awaits, should it come to them. */
  datatype Answers = Answers(
    fingerprint: string, preparedAt: int,
    busy: bool, probedAt: int,
    reloads: bool,
    spawned: Option<Endpoint>,
    healthy: bool,
    sessions: set<string>,
    lists: seq<(set<string>, set<string>)>,
    flippedAt: int)

  function Surfaces(a: Answers): seq<Event> {
    seq(|a.lists|, i requires 0 <= i < |a.lists| => ESurfaceListed(a.lists[i].0, a.lists[i].1))
  }

  /** Every segment a rollover may come to, in order: a run skips those it does not wait for. */
  function Segments(a: Answers): seq<Event> {
    [EPrepared(a.fingerprint, a.preparedAt), EBusyKnown(a.busy, a.probedAt), EReloaded(a.reloads), ESpawned(a.spawned),
     EHealthKnown(a.healthy), EStandbyClosed, ERegistered, ESessionsListed(a.sessions)] + Surfaces(a) + [EFlipped(a.flippedAt)]
  }

  function From(p: Pool, a: Answers, k: nat): Pool
    requires k <= |Segments(a)|
  {
    After(p, Segments(a)[k..])
  }

  lemma FromStep(p: Pool, a: Answers, k: nat)
    requires k < |Segments(a)|
    ensures From(p, a, k) == From(Next(p, Segments(a)[k]), a, k + 1)
  {
    hide Next, Segments;
    assert Segments(a)[k..][1..] == Segments(a)[k + 1..];
  }

  predicate Rests(p: Pool) {
    p.inFlight.Some? && (p.inFlight.value.Settled? || p.inFlight.value.AwaitingDrain?)
  }

  lemma SegmentRests(p: Pool, a: Answers, k: nat)
    requires Rests(p) && k < |Segments(a)|
    ensures Next(p, Segments(a)[k]) == p
  {
    hide Decide, Find, PrimaryId, Without, Flip, Fingerprinted, AddOwner;
    assert forall i | 0 <= i < |a.lists| :: Surfaces(a)[i].ESurfaceListed?;
  }

  lemma {:induction false} RestsOn(p: Pool, a: Answers, k: nat)
    requires Rests(p) && k <= |Segments(a)|
    ensures From(p, a, k) == p
    decreases |Segments(a)| - k
  {
    if k < |Segments(a)| {
      FromStep(p, a, k);
      SegmentRests(p, a, k);
      hide Next, Segments, Rests, From;
      RestsOn(p, a, k + 1);
    }
  }

  lemma StepTo(p: Pool, a: Answers, k: nat, q: Pool)
    requires k < |Segments(a)| && Next(p, Segments(a)[k]) == q
    ensures From(p, a, k) == From(q, a, k + 1)
  {
    FromStep(p, a, k);
  }

  lemma ReloadEnds(p: Pool, a: Answers)
    requires p.inFlight.Some? && p.inFlight.value.Reloading?
    ensures From(p, a, 2) == Reloaded(p, a.reloads)
  {
    hide From, Reloaded;
    StepTo(p, a, 2, Reloaded(p, a.reloads));
    assert Reloaded(p, a.reloads).inFlight == Some(Settled) by { ReloadSettles(p, a.reloads); }
    RestsOn(Reloaded(p, a.reloads), a, 3);
  }

  lemma ReloadSettles(p: Pool, ok: bool)
    requires p.inFlight.Some? && p.inFlight.value.Reloading?
    ensures Reloaded(p, ok).inFlight == Some(Settled)
  {
    hide Fingerprinted;
  }

  /** The pool with its standby started. */
  function WithStandby(p: Pool, endpoint: Endpoint): Pool
    requires AtSpawn(p)
  {
    var run := p.inFlight.value;
    p.(generations := p.generations + [Generation(p.nextId, endpoint, Starting, run.fingerprint, None)],
       inFlight := Some(CheckingHealth(run.primary, Handle(p.nextId, endpoint))), nextId := p.nextId + 1)
  }

  lemma SpawnFails(p: Pool, a: Answers)
    requires AtSpawn(p) && a.spawned.None?
    ensures From(p, a, 3) == p.(inFlight := Some(Settled))
  {
    hide From;
    StepTo(p, a, 3, p.(inFlight := Some(Settled)));
    RestsOn(p.(inFlight := Some(Settled)), a, 4);
  }

  lemma {:induction false} WithoutLast(gens: seq<Generation>, g: Generation)
    requires forall h <- gens :: h.id != g.id
    ensures Without(gens + [g], g.id) == gens
  {
    if gens == [] {
      assert [] + [g] == [g] && Without([], g.id) == [];
    } else {
      assert (gens + [g])[1..] == gens[1..] + [g] && gens == [gens[0]] + gens[1..];
      WithoutLast(gens[1..], g);
    }
  }

  lemma StandbyUnhealthy(p: Pool, a: Answers)
    requires AtSpawn(p) && a.spawned.Some? && !a.healthy && forall g <- p.generations :: g.id != p.nextId
    ensures From(p, a, 3) == p.(inFlight := Some(Settled), nextId := p.nextId + 1)
  {
    hide From, Without;
    var q := WithStandby(p, a.spawned.value);
    var r := p.(inFlight := Some(ClosingStandby), nextId := p.nextId + 1);
    StepTo(p, a, 3, q);
    WithoutLast(p.generations, Generation(p.nextId, a.spawned.value, Starting, p.inFlight.value.fingerprint, None));
    StepTo(q, a, 4, r);
    StepTo(r, a, 5, r.(inFlight := Some(Settled)));
    RestsOn(r.(inFlight := Some(Settled)), a, 6);
  }

  /** What the prompt lists name between them. */
  function AllRequests(lists: seq<(set<string>, set<string>)>): set<string> {
    if lists == [] then {} else AllRequests(lists[..|lists| - 1]) + lists[|lists| - 1].0
  }

  function AllSessions(lists: seq<(set<string>, set<string>)>): set<string> {
    if lists == [] then {} else AllSessions(lists[..|lists| - 1]) + lists[|lists| - 1].1
  }

  /** The run once `n` of its four lists are in. */
  function Asked(p: Pool, a: Answers, standby: Handle, primary: Option<Id>, n: nat): Pool
    requires n <= 4 <= |a.lists|
  {
    if primary.None? then p.(inFlight := Some(ListingRequests(None, standby, {}, {}, 0)))
    else
      p.(inFlight := Some(ListingRequests(primary, standby, a.sessions, AllRequests(a.lists[..n]), 4 - n)),
         sessionOwnership := AddOwner(p.sessionOwnership, AllSessions(a.lists[..n]), primary.value))
  }

  lemma AddOwners(owners: map<string, Id>, a: set<string>, b: set<string>, id: Id)
    ensures AddOwner(AddOwner(owners, a, id), b, id) == AddOwner(owners, a + b, id)
    ensures AddOwner(owners, {}, id) == owners
  {
  }

  lemma AskedStep(p: Pool, a: Answers, standby: Handle, primary: Option<Id>, n: nat)
    requires n < 4 == |a.lists|
    ensures Next(Asked(p, a, standby, primary, n), Surfaces(a)[n]) == Asked(p, a, standby, primary, n + 1)
  {
    assert a.lists[..n + 1][..n] == a.lists[..n];
    if primary.Some? {
      AddOwners(p.sessionOwnership, AllSessions(a.lists[..n]), a.lists[n].1, primary.value);
    }
    hide AddOwner;
  }

  lemma {:induction false} ListsIn(p: Pool, a: Answers, standby: Handle, primary: Option<Id>, n: nat)
    requires n <= 4 == |a.lists|
    ensures From(Asked(p, a, standby, primary, n), a, 8 + n) == From(Asked(p, a, standby, primary, 4), a, 12)
    decreases 4 - n
  {
    hide From, Asked;
    if n < 4 {
      AskedStep(p, a, standby, primary, n);
      assert Segments(a)[8 + n] == Surfaces(a)[n];
      hide Next;
      StepTo(Asked(p, a, standby, primary, n), a, 8 + n, Asked(p, a, standby, primary, n + 1));
      ListsIn(p, a, standby, primary, n + 1);
    }
  }

  lemma FlipComes(p: Pool, a: Answers)
    requires |a.lists| == 4 && FlipReady(p)
    ensures From(p, a, 12) == Flipped(p, a.flippedAt)
  {
    hide From;
    assert Segments(a)[12] == EFlipped(a.flippedAt);
    FlipSettles(p, a.flippedAt);
    hide Flipped;
    StepTo(p, a, 12, Flipped(p, a.flippedAt));
    RestsOn(Flipped(p, a.flippedAt), a, 13);
  }

  /** A healthy standby is registered, and the old primary is asked. */
  lemma StandbyAsks(p: Pool, a: Answers)
    requires AtSpawn(p) && a.spawned.Some? && a.healthy && |a.lists| == 4
    ensures var run, standby := p.inFlight.value, Handle(p.nextId, a.spawned.value);
      From(p, a, 3) == From(WithStandby(p, a.spawned.value).(inFlight := Some(Registering(run.primary, standby))), a, 5)
  {
    hide From;
    var run, standby := p.inFlight.value, Handle(p.nextId, a.spawned.value);
    var q := WithStandby(p, a.spawned.value);
    StepTo(p, a, 3, q);
    StepTo(q, a, 4, q.(inFlight := Some(Registering(run.primary, standby))));
  }

  lemma StandbyRegisters(q: Pool, a: Answers, primary: Option<Id>, standby: Handle)
    requires |a.lists| == 4
    ensures From(q.(inFlight := Some(Registering(primary, standby))), a, 5) ==
            From(q.(inFlight := Some(ListingSessions(primary, standby))), a, 7)
  {
    hide From;
    var r := q.(inFlight := Some(Registering(primary, standby)));
    StepTo(r, a, 5, r);
    StepTo(r, a, 6, q.(inFlight := Some(ListingSessions(primary, standby))));
  }

  lemma StandbyLists(q: Pool, a: Answers, primary: Option<Id>, standby: Handle)
    requires |a.lists| == 4
    ensures From(q.(inFlight := Some(ListingSessions(primary, standby))), a, 7) ==
            Flipped(Asked(q, a, standby, primary, 4), a.flippedAt)
  {
    var l := q.(inFlight := Some(ListingSessions(primary, standby)));
    hide From, Flipped, SessionsListed, Asked;
    FirstAsked(q, a, standby, primary);
    StepTo(l, a, 7, Asked(q, a, standby, primary, 0));
    hide Next, Segments;
    ListsIn(q, a, standby, primary, 0);
    AskedReady(q, a, standby, primary);
    FlipComes(Asked(q, a, standby, primary, 4), a);
  }

  lemma AskedReady(q: Pool, a: Answers, standby: Handle, primary: Option<Id>)
    requires |a.lists| == 4
    ensures FlipReady(Asked(q, a, standby, primary, 4))
  {
    hide AddOwner;
  }

  /** The pool as the run flips. */
  function Ready(p: Pool, a: Answers): Pool
    requires AtSpawn(p) && a.spawned.Some? && |a.lists| == 4
  {
    Asked(WithStandby(p, a.spawned.value), a, Handle(p.nextId, a.spawned.value), p.inFlight.value.primary, 4)
  }

  lemma StandbyServes(p: Pool, a: Answers)
    requires AtSpawn(p) && a.spawned.Some? && a.healthy && |a.lists| == 4
    ensures From(p, a, 3) == Flipped(Ready(p, a), a.flippedAt)
  {
    var run, standby := p.inFlight.value, Handle(p.nextId, a.spawned.value);
    var q := WithStandby(p, a.spawned.value);
    hide From, Flipped, Asked, WithStandby;
    StandbyAsks(p, a);
    StandbyRegisters(q, a, run.primary, standby);
    StandbyLists(q, a, run.primary, standby);
  }

  lemma FirstAsked(q: Pool, a: Answers, standby: Handle, primary: Option<Id>)
    requires |a.lists| == 4
    ensures SessionsListed(q.(inFlight := Some(ListingSessions(primary, standby))), a.sessions) ==
            Asked(q, a, standby, primary, 0)
  {
    assert a.lists[..0] == [];
    if primary.Some? { AddOwners(q.sessionOwnership, {}, {}, primary.value); }
  }

  // --------------------------------------------------------------- how it ends

  /** Some primary of the list was built from this fingerprint. */
  ghost predicate Carried(t: Table, fingerprint: string) {
    exists id <- t :: t[id].status == Primary && t[id].fingerprint == fingerprint
  }

  /** Every workspace but the remote ones points at the engine, and works where it lies. */
  ghost predicate Repointed(before: Config, config: Config, endpoint: Endpoint) {
    && config.endpoint == endpoint && |config.workspaces| == |before.workspaces|
    && forall i | 0 <= i < |config.workspaces| ::
         var v, w := before.workspaces[i], config.workspaces[i];
         && w.id == v.id && w.remote == v.remote && w.path == v.path
         && (if v.remote then w == v else w.endpoint == endpoint && w.directory == v.path)
  }

  /** The new engine serves, built from the run's fingerprint; the old primary, if there was
      one, drains; the rest of the list is as it was. */
  ghost predicate Replaced(p: Pool, q: Pool, primary: Option<Id>, endpoint: Endpoint, fingerprint: string, deadline: int) {
    var t, t' := TableOf(p.generations), TableOf(q.generations);
    && t'.Keys == t.Keys + {p.nextId} && q.nextId == p.nextId + 1
    && t'[p.nextId] == Generation(p.nextId, endpoint, Primary, fingerprint, None)
    && (forall id <- t :: t'[id] ==
          if primary == Some(id) then t[id].(status := Draining, drainDeadline := Some(deadline)) else t[id])
    && Repointed(p.config, q.config, endpoint)
  }

  /** Without an old primary nobody is asked and nothing is handed over. */
  ghost predicate Handed(p: Pool, q: Pool, primary: Option<Id>, a: Answers) {
    if primary.None? then
      && q.activeSessions == p.activeSessions && q.sessionOwnership == p.sessionOwnership
      && q.pinnedRequests == p.pinnedRequests && q.polls == p.polls
    else
      var id := primary.value;
      && q.activeSessions == p.activeSessions[id := a.sessions]
      && q.sessionOwnership == AddOwner(p.sessionOwnership, AllSessions(a.lists) + a.sessions, id)
      && q.pinnedRequests == AddOwner(p.pinnedRequests, AllRequests(a.lists), id)
      && q.polls == p.polls + multiset{id}
  }

  /** What a flip leaves alone. */
  ghost predicate Besides(p: Pool, q: Pool) {
    && q.settings == p.settings && q.pending == p.pending && q.disposed == p.disposed && q.aborts == p.aborts
    && q.closing == p.closing && q.recovery == p.recovery && q.disposal == p.disposal
  }

  /** A standby was wanted, at this time. */
  ghost predicate Spawns(p: Pool, q: Pool, primary: Option<Id>, a: Answers, at: int) {
    if a.spawned.None? then q == p.(inFlight := Some(Settled), lastSpawnAt := at)
    else if !a.healthy then q == p.(inFlight := Some(Settled), lastSpawnAt := at, nextId := p.nextId + 1)
    else
      && q.inFlight == Some(Settled) && q.lastSpawnAt == at && Besides(p, q)
      && Replaced(p, q, primary, a.spawned.value, a.fingerprint, a.flippedAt + p.settings.drainTimeoutMs)
      && Handed(p, q, primary, a)
  }

  /** The engine counts as busy at this time. */
  ghost predicate Decides(p: Pool, q: Pool, request: Request, primary: Option<Id>, a: Answers, at: int) {
    var parked := p.(pending := Some(request), inFlight := Some(Settled));
    if !NoneIs(TableOf(p.generations), Draining) then
      q == if request.forceStandby then p.(inFlight := Some(AwaitingDrain(request, false))) else parked
    else if !request.manual && !request.forceStandby && at - p.lastSpawnAt < p.settings.minSpawnIntervalMs then
      q == parked
    else Spawns(p, q, primary, a, at)
  }

  /** The engine is idle: only the primary's fingerprint changes, if the reload succeeded. */
  ghost predicate Reloads(p: Pool, q: Pool, primary: Option<Id>, a: Answers) {
    var t := TableOf(p.generations);
    && q == p.(inFlight := Some(Settled), generations := q.generations)
    && DistinctIds(q.generations)
    && TableOf(q.generations) ==
         if a.reloads && primary.Some? && primary.value in t
         then t[primary.value := t[primary.value].(fingerprint := a.fingerprint)] else t
  }

  ghost predicate Ends(p: Pool, q: Pool, request: Request, primary: Option<Id>, a: Answers) {
    if !request.manual && Carried(TableOf(p.generations), a.fingerprint) then q == p.(inFlight := Some(Settled))
    else if request.forceStandby then Decides(p, q, request, primary, a, a.preparedAt)
    else if a.busy then Decides(p, q, request, primary, a, a.probedAt)
    else Reloads(p, q, primary, a)
  }

  // ------------------------------------------------------------------- proofs

  lemma RepointedBy(config: Config, endpoint: Endpoint)
    ensures Repointed(config, PointedAt(config, endpoint), endpoint)
  {
  }

  lemma FlipReplaces(p: Pool, q: Pool, primary: Option<Id>, endpoint: Endpoint, fingerprint: string, deadline: int)
    requires Numbered(p) && IsPrimary(TableOf(p.generations), primary) && q.nextId == p.nextId + 1
    requires var g := Generation(p.nextId, endpoint, Starting, fingerprint, None);
      TableOf(q.generations) == FlippedTable(TableOf(p.generations)[p.nextId := g], p.nextId, primary, Some(deadline))
    requires q.config == PointedAt(p.config, endpoint)
    ensures Replaced(p, q, primary, endpoint, fingerprint, deadline)
  {
    RepointedBy(p.config, endpoint);
    assert p.nextId !in TableOf(p.generations);
    hide TableOf, DistinctIds, PointedAt, Repointed;
  }

  /** What a run that is about to flip knows. */
  lemma ReadyFields(p: Pool, a: Answers)
    requires AtSpawn(p) && a.spawned.Some? && |a.lists| == 4
    ensures var r, run := Ready(p, a), p.inFlight.value;
      && FlipReady(r) && r.inFlight.value.primary == run.primary
      && r.inFlight.value.standby == Handle(p.nextId, a.spawned.value)
      && r == p.(generations := r.generations, inFlight := r.inFlight, nextId := p.nextId + 1,
                 sessionOwnership := r.sessionOwnership)
      && r.generations == p.generations + [Generation(p.nextId, a.spawned.value, Starting, run.fingerprint, None)]
  {
    hide AddOwner;
  }

  lemma FlipsList(p: Pool, now: int)
    requires FlipReady(p) && DistinctIds(p.generations)
    ensures var run, q := p.inFlight.value, Flipped(p, now);
      && TableOf(q.generations) ==
           FlippedTable(TableOf(p.generations), run.standby.id, run.primary, Some(now + p.settings.drainTimeoutMs))
      && q.config == PointedAt(p.config, run.standby.endpoint)
  {
    FlippedOutcome(p, now);
    hide Flipped, FlippedList, FlippedTable, TableOf, DistinctIds, PointedAt, AddOwner;
    FlippedListTable(p.generations, p.inFlight.value.standby.id, p.inFlight.value.primary, now + p.settings.drainTimeoutMs);
  }

  /** The flip of a standby that was just started. */
  lemma FlippedPool(p: Pool, a: Answers, q: Pool)
    requires Numbered(p) && AtSpawn(p) && a.spawned.Some? && |a.lists| == 4
    requires IsPrimary(TableOf(p.generations), p.inFlight.value.primary)
    requires q == Flipped(Ready(p, a), a.flippedAt)
    ensures var run := p.inFlight.value;
      Replaced(p, q, run.primary, a.spawned.value, run.fingerprint, a.flippedAt + p.settings.drainTimeoutMs)
  {
    var r, run := Ready(p, a), p.inFlight.value;
    ReadyFields(p, a);
    AppendBecomes(p, Generation(p.nextId, a.spawned.value, Starting, run.fingerprint, None));
    hide *;
    FlipsList(r, a.flippedAt);
    FlippedNext(r, a.flippedAt);
    FlipReplaces(p, q, run.primary, a.spawned.value, run.fingerprint, a.flippedAt + p.settings.drainTimeoutMs);
  }

  lemma FlippedNext(p: Pool, now: int)
    ensures var q := Flipped(p, now); q.nextId == p.nextId && q.lastSpawnAt == p.lastSpawnAt && Besides(p, q)
  {
    FlippedTouches(p, now);
    hide Flipped;
  }

  lemma FlippedHands(p: Pool, a: Answers, q: Pool)
    requires Numbered(p) && AtSpawn(p) && a.spawned.Some? && |a.lists| == 4
    requires IsPrimary(TableOf(p.generations), p.inFlight.value.primary)
    requires q == Flipped(Ready(p, a), a.flippedAt)
    requires Replaced(p, q, p.inFlight.value.primary, a.spawned.value, p.inFlight.value.fingerprint,
                      a.flippedAt + p.settings.drainTimeoutMs)
    ensures Handed(p, q, p.inFlight.value.primary, a)
  {
    var run, standby := p.inFlight.value, Handle(p.nextId, a.spawned.value);
    var r := Ready(p, a);
    assert a.lists[..4] == a.lists;
    if run.primary.Some? {
      assert Has(TableOf(q.generations), run.primary.value, Draining);
      DrainingStatus(q.generations, run.primary.value);
      AddOwners(p.sessionOwnership, AllSessions(a.lists), a.sessions, run.primary.value);
      hide TableOf, DistinctIds, Replaced, IsPrimary, AddOwner, StatusOf;
      FlipFields(r, a.flippedAt, run.primary.value);
      FlipPollsOnce(r, a.flippedAt, run.primary.value);
      hide Flipped;
    } else {
      hide TableOf, DistinctIds, Replaced, Assign, PointedAt;
    }
  }

  lemma FlipPollsOnce(p: Pool, now: int, id: Id)
    requires FlipReady(p) && p.inFlight.value.primary == Some(id)
    requires StatusOf(Flipped(p, now).generations, id) == Draining
    ensures Flipped(p, now).polls == p.polls + multiset{id}
  {
    var run := p.inFlight.value;
    hide Assign, StatusOf, PointedAt, AddOwner, FlippedList, StartDrainMonitor;
    MonitorPolls(Flip(p, run.standby, run.primary, run.sessions, run.requests), id, now);
  }

  lemma FlippedRest(p: Pool, a: Answers, q: Pool)
    requires AtSpawn(p) && a.spawned.Some? && |a.lists| == 4
    requires q == Flipped(Ready(p, a), a.flippedAt)
    ensures q.inFlight == Some(Settled) && q.lastSpawnAt == p.lastSpawnAt && Besides(p, q)
  {
    ReadyFields(p, a);
    FlippedNext(Ready(p, a), a.flippedAt);
    FlipSettles(Ready(p, a), a.flippedAt);
    hide Flipped, Ready, FlipReady;
  }

  lemma MonitorPolls(p: Pool, id: Id, now: int)
    requires StatusOf(StartDrainMonitor(p, id, now).generations, id) == Draining
    ensures StartDrainMonitor(p, id, now).polls == p.polls + multiset{id}
  {
    hide Assign, StatusOf;
  }

  lemma NextIsNew(p: Pool)
    requires Numbered(p)
    ensures forall g <- p.generations :: g.id != p.nextId
  {
    TableKeys(p.generations);
    hide TableOf, DistinctIds;
  }

  lemma SpawnEnds(p: Pool, a: Answers)
    requires Numbered(p) && AtSpawn(p) && |a.lists| == 4 && IsPrimary(TableOf(p.generations), p.inFlight.value.primary)
    requires p.inFlight.value.fingerprint == a.fingerprint
    ensures Spawns(p, From(p, a, 3), p.inFlight.value.primary, a, p.lastSpawnAt)
  {
    hide From, Replaced, Handed, IsPrimary, Ready, Flipped, Besides;
    if a.spawned.None? {
      SpawnFails(p, a);
    } else if !a.healthy {
      NextIsNew(p);
      StandbyUnhealthy(p, a);
    } else {
      var q := Flipped(Ready(p, a), a.flippedAt);
      StandbyServes(p, a);
      FlippedPool(p, a, q);
      FlippedHands(p, a, q);
      FlippedRest(p, a, q);
    }
  }

  lemma SpawnsAlike(p0: Pool, p: Pool, q: Pool, primary: Option<Id>, a: Answers, at: int)
    requires Spawns(p, q, primary, a, at) && p == p0.(inFlight := p.inFlight, lastSpawnAt := p.lastSpawnAt)
    ensures Spawns(p0, q, primary, a, at)
  {
    hide TableOf, Repointed;
  }

  /** The busy branch, with `k` the next segment to come. */
  lemma DecideEnds(p: Pool, request: Request, primary: Option<Id>, a: Answers, at: int, k: nat)
    requires Numbered(p) && |a.lists| == 4 && IsPrimary(TableOf(p.generations), primary) && 1 <= k <= 2
    ensures Decides(p, From(Decide(p, request, a.fingerprint, primary, at), a, k), request, primary, a, at)
  {
    var r := Decide(p, request, a.fingerprint, primary, at);
    DecideIs(p, request, a.fingerprint, primary, at);
    assert AtSpawn(r) || Rests(r);
    hide From, TableOf, DistinctIds, Spawns, IsPrimary, Decide, NoneIs, Segments, Rests, Next;
    if AtSpawn(r) {
      SpawnDecided(p, r, primary, a, at, k);
    } else {
      LongEnough(a, k);
      RestsOn(r, a, k);
    }
  }

  lemma LongEnough(a: Answers, k: nat)
    requires k <= 8
    ensures k <= |Segments(a)|
  {
  }

  lemma SpawnDecided(p: Pool, r: Pool, primary: Option<Id>, a: Answers, at: int, k: nat)
    requires Numbered(p) && |a.lists| == 4 && IsPrimary(TableOf(p.generations), primary) && 1 <= k <= 2
    requires r == p.(lastSpawnAt := at, inFlight := Some(Spawning(a.fingerprint, primary)))
    ensures Spawns(p, From(r, a, k), primary, a, at)
  {
    assert AtSpawn(r) && Numbered(r);
    hide From, TableOf, DistinctIds, Spawns, IsPrimary, Numbered, Segments, Next;
    SpawnComes(r, a, k);
    SpawnEnds(r, a);
    SpawnsAlike(p, r, From(r, a, 3), primary, a, at);
  }

  lemma DecideIs(p: Pool, request: Request, fingerprint: string, primary: Option<Id>, at: int)
    requires DistinctIds(p.generations)
    ensures var q := Decide(p, request, fingerprint, primary, at);
      if !NoneIs(TableOf(p.generations), Draining) then
        q == if request.forceStandby then p.(inFlight := Some(AwaitingDrain(request, false)))
             else p.(pending := Some(request), inFlight := Some(Settled))
      else if !request.manual && !request.forceStandby && at - p.lastSpawnAt < p.settings.minSpawnIntervalMs then
        q == p.(pending := Some(request), inFlight := Some(Settled))
      else q == p.(lastSpawnAt := at, inFlight := Some(Spawning(fingerprint, primary)))
  {
    DrainingFound(p.generations);
    hide TableOf, DistinctIds, Find;
  }

  lemma SpawnComes(p: Pool, a: Answers, k: nat)
    requires AtSpawn(p) && 1 <= k <= 2
    ensures From(p, a, k) == From(p, a, 3)
  {
    hide From;
    if k == 1 { StepTo(p, a, 1, p); }
    StepTo(p, a, 2, p);
  }

  lemma ReloadedList(p: Pool, a: Answers, primary: Option<Id>)
    requires DistinctIds(p.generations)
    ensures Reloads(p, Reloaded(p.(inFlight := Some(Reloading(a.fingerprint, primary))), a.reloads), primary, a)
  {
    if primary.Some? { TableFingerprinted(p.generations, primary.value, a.fingerprint); }
    hide TableOf, DistinctIds, Fingerprinted;
  }

  lemma CarriedFound(p: Pool, fingerprint: string)
    requires DistinctIds(p.generations) && AtMostOne(TableOf(p.generations), Primary)
    ensures var primary := Find(p.generations, Primary);
      Carried(TableOf(p.generations), fingerprint) <==> primary.Some? && primary.value.fingerprint == fingerprint
  {
    PrimaryFound(p.generations);
    FoundInTable(p.generations, Primary);
    hide TableOf, DistinctIds, Find;
  }

  /** Every rollover, by itself, ends as its answers say: nothing happens when it is not manual
      and a primary carries the fingerprint; an idle engine reloads in place and its entry
      takes the fingerprint if the reload succeeded; a busy one is replaced by a healthy
      standby built from the fingerprint and drains with all that was listed, unless another
      engine drains (a forced run waits, any other parks), the minimum interval has not
      passed (an unforced, unmanual run parks), or the standby fails. */
  lemma RolloverEnds(p: Pool, request: Request, a: Answers, primary: Option<Id>)
    requires Numbered(p) && AtMostOne(TableOf(p.generations), Primary) && IsPrimary(TableOf(p.generations), primary)
    requires p.inFlight == Some(Preparing(request)) && |a.lists| == 4
    ensures Ends(p, After(p, Segments(a)), request, primary, a)
  {
    assert Segments(a)[0..] == Segments(a);
    CarriedFound(p, a.fingerprint);
    OnePrimaryId(p, primary);
    hide TableOf, DistinctIds, IsPrimary, Find, Decides, Reloads, Carried, AtMostOne;
    if !request.manual && Carried(TableOf(p.generations), a.fingerprint) {
      hide From;
      StepTo(p, a, 0, p.(inFlight := Some(Settled)));
      RestsOn(p.(inFlight := Some(Settled)), a, 1);
    } else if request.forceStandby {
      hide From;
      StepTo(p, a, 0, Decide(p, request, a.fingerprint, primary, a.preparedAt));
      DecideEnds(p, request, primary, a, a.preparedAt, 1);
    } else {
      hide From;
      var b := p.(inFlight := Some(ProbingBusy(request, a.fingerprint, primary)));
      StepTo(p, a, 0, b);
      ProbeEnds(p, b, request, primary, a);
    }
  }

  lemma OnePrimaryId(p: Pool, primary: Option<Id>)
    requires DistinctIds(p.generations) && AtMostOne(TableOf(p.generations), Primary)
    requires IsPrimary(TableOf(p.generations), primary)
    ensures PrimaryId(p.generations) == primary
  {
    PrimaryFound(p.generations);
    hide TableOf, DistinctIds, PrimaryId;
  }

  lemma ProbeEnds(p: Pool, b: Pool, request: Request, primary: Option<Id>, a: Answers)
    requires Numbered(p) && IsPrimary(TableOf(p.generations), primary) && |a.lists| == 4
    requires b == p.(inFlight := Some(ProbingBusy(request, a.fingerprint, primary)))
    ensures if a.busy then Decides(p, From(b, a, 1), request, primary, a, a.probedAt) else Reloads(p, From(b, a, 1), primary, a)
  {
    hide From, TableOf, DistinctIds, IsPrimary, Find, Decides, Reloads;
    if a.busy {
      DecideAlike(p, b, request, primary, a);
      StepTo(b, a, 1, Decide(p, request, a.fingerprint, primary, a.probedAt));
      DecideEnds(p, request, primary, a, a.probedAt, 2);
    } else {
      var r := p.(inFlight := Some(Reloading(a.fingerprint, primary)));
      StepTo(b, a, 1, r);
      ReloadEnds(r, a);
      ReloadedList(p, a, primary);
    }
  }

  lemma DecideAlike(p: Pool, b: Pool, request: Request, primary: Option<Id>, a: Answers)
    requires b == p.(inFlight := b.inFlight)
    ensures Decide(b, request, a.fingerprint, primary, a.probedAt) == Decide(p, request, a.fingerprint, primary, a.probedAt)
  {
    hide Find;
  }

  /** From startup: a rollover that is neither manual nor forced does nothing while the config
      is the one the first engine was built from, and parks when that engine is busy and the
      minimum interval since startup has not passed. */
  lemma FirstRollover(settings: Settings, config: Config, endpoint: Endpoint, fingerprint: string, now: int,
                      request: Request, a: Answers)
    requires !request.manual && !request.forceStandby && |a.lists| == 4
    ensures var p := Next(Adopted(settings, config, endpoint, fingerprint, now), ERequest(request));
      var q := After(p, Segments(a));
      && (a.fingerprint == fingerprint ==> q == p.(inFlight := Some(Settled)))
      && (a.fingerprint != fingerprint && a.busy && a.probedAt - now < settings.minSpawnIntervalMs ==>
            q == p.(pending := Some(request), inFlight := Some(Settled)))
  {
    var p := Next(Adopted(settings, config, endpoint, fingerprint, now), ERequest(request));
    AdoptedTable(settings, config, endpoint, fingerprint, now);
    RolloverEnds(p, request, a, Some(0));
    hide After, Segments, TableOf, Reloads, Spawns;
  }

  lemma AdoptedTable(settings: Settings, config: Config, endpoint: Endpoint, fingerprint: string, now: int)
    ensures var p := Adopted(settings, config, endpoint, fingerprint, now);
      && TableOf(p.generations) == map[0 := Generation(0, endpoint, Primary, fingerprint, None)] && DistinctIds(p.generations)
      && p.nextId == 1 && p.lastSpawnAt == now && p.inFlight.None? && !p.disposed && p.settings == settings && p.config == config
  {
  }

  // ----------------------------------------------------- reloads that overlap

  lemma {:induction false} ReloadingStays(p: Pool, events: seq<Event>)
    requires p.inFlight.Some? && p.inFlight.value.Reloading? && forall e <- events :: !e.EReloaded?
    ensures After(p, events).inFlight == p.inFlight
    decreases |events|
  {
    if events != [] {
      if Next(p, events[0]).inFlight != p.inFlight { RunMoves(p, events[0]); }
      assert forall e <- events[1..] :: e in events;
      hide Next;
      ReloadingStays(Next(p, events[0]), events[1..]);
    }
  }

  /** In every run: whatever happens while an idle engine reloads, once the reload has
      succeeded that engine is still the primary and carries the run's fingerprint; if it
      fails nothing but the run changes. */
  lemma ReloadReaches(p: Pool, events: seq<Event>, ok: bool, id: Id)
    requires Inv(p) && SerialRun(p, events) && forall e <- events :: !e.EReloaded?
    requires p.inFlight.Some? && p.inFlight.value.Reloading? && p.inFlight.value.primary == Some(id)
    ensures var q := Next(After(p, events), EReloaded(ok));
      && Has(TableOf(q.generations), id, Primary)
      && (ok ==> TableOf(q.generations)[id].fingerprint == p.inFlight.value.fingerprint)
      && (!ok ==> q == After(p, events).(inFlight := Some(Settled)))
  {
    var q := After(p, events);
    ReloadingStays(p, events);
    RunKeeps(p, events);
    hide After, Inv, SerialRun, Serial;
    ReloadDone(q, ok, id);
  }

  lemma ReloadDone(p: Pool, ok: bool, id: Id)
    requires Inv(p) && p.inFlight.Some? && p.inFlight.value.Reloading? && p.inFlight.value.primary == Some(id)
    ensures var q := Next(p, EReloaded(ok));
      && Has(TableOf(q.generations), id, Primary)
      && (ok ==> TableOf(q.generations)[id].fingerprint == p.inFlight.value.fingerprint)
      && (!ok ==> q == p.(inFlight := Some(Settled)))
  {
    ReloadKnows(p, id);
    hide Inv, TableOf, Fingerprinted, DistinctIds;
    TableFingerprinted(p.generations, id, p.inFlight.value.fingerprint);
  }

  lemma ReloadKnows(p: Pool, id: Id)
    requires Inv(p) && p.inFlight.Some? && p.inFlight.value.Reloading? && p.inFlight.value.primary == Some(id)
    ensures Has(TableOf(p.generations), id, Primary)
  {
    hide TableOf, DistinctIds;
  }
}
