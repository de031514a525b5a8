/** Where the engine pool's promises end: a trace for each hypothesis of the safety
    theorems, and exact conditions for the steps that break them. Those for overlapping
    recoveries and disposals are in `EnginePoolOverlaps` and `EnginePoolDisposal`. */
module EnginePoolLimits {
  import opened Wrappers
  import opened EnginePoolFrames
  import opened EnginePoolModel
  import opened EnginePoolInvariants
  import opened EnginePoolTheorems

  lemma {:induction false} AfterAppend(p: Pool, events: seq<Event>, e: Event)
    ensures After(p, events + [e]) == Next(After(p, events), e)
    decreases |events|
  {
    if events == [] {
      assert events + [e] == [e];
      assert After(p, [e]) == After(Next(p, e), []);
    } else {
      assert (events + [e])[0] == events[0] && (events + [e])[1..] == events[1..] + [e];
      AfterAppend(Next(p, events[0]), events[1..], e);
    }
  }

  /** The pool can be in state `q` after `n` events from `p`. */
  ghost predicate Reaches(p: Pool, q: Pool) {
    exists events :: After(p, events) == q
  }

  lemma ReachesSelf(p: Pool)
    ensures Reaches(p, p)
  {
    assert After(p, []) == p;
  }

  lemma ReachesNext(start: Pool, p: Pool, e: Event)
    requires Reaches(start, p)
    ensures Reaches(start, Next(p, e))
  {
    var events :| After(start, events) == p;
    AfterAppend(start, events, e);
  }

  const A := Endpoint("http://a", "u", "a")
  const B := Endpoint("http://b", "u", "b")
  const C := Endpoint("http://c", "u", "c")

  /** A pool just started on engine `A`. */
  function Start(): Pool {
    Adopted(Settings(900000, 30000), Config(A, []), A, "f0", 0)
  }

  function Forced(): Request {
    Request("config", "w", false, true, true)
  }

  // ------------------------------------------- one whole standby rollover

  /** The pool with a standby in the list and the old engine's lists still to ask for. */
  function Listing(p: Pool, engine: Id, endpoint: Endpoint, fingerprint: string, now: int, surfaces: nat): Pool {
    p.(generations := p.generations + [Generation(p.nextId, endpoint, Starting, fingerprint, None)],
       inFlight := Some(ListingRequests(Some(engine), Handle(p.nextId, endpoint), {}, {}, surfaces)),
       lastSpawnAt := now, nextId := p.nextId + 1)
  }

  lemma StandbySpawning(start: Pool, p: Pool, engine: Generation, fingerprint: string, now: int)
    requires Reaches(start, p) && p.inFlight.None? && !p.disposed
    requires Find(p.generations, Draining).None? && Find(p.generations, Primary) == Some(engine)
    requires engine.fingerprint != fingerprint
    ensures Reaches(start, p.(inFlight := Some(Spawning(fingerprint, Some(engine.id))), lastSpawnAt := now))
  {
    hide Find, Reaches;
    ReachesNext(start, p, ERequest(Forced()));
    var p1 := Next(p, ERequest(Forced()));
    ReachesNext(start, p1, EPrepared(fingerprint, now));
  }

  lemma StandbyListing(start: Pool, p: Pool, engine: Id, endpoint: Endpoint, fingerprint: string, now: int)
    requires Reaches(start, p.(inFlight := Some(Spawning(fingerprint, Some(engine))), lastSpawnAt := now))
    ensures Reaches(start, Listing(p, engine, endpoint, fingerprint, now, 4))
  {
    hide Reaches;
    var p2 := p.(inFlight := Some(Spawning(fingerprint, Some(engine))), lastSpawnAt := now);
    ReachesNext(start, p2, ESpawned(Some(endpoint)));
    var p3 := Spawned(p2, Some(endpoint));
    ReachesNext(start, p3, EHealthKnown(true));
    var p4 := HealthKnown(p3, true);
    ReachesNext(start, p4, ERegistered);
    var p5 := Registered(p4);
    ReachesNext(start, p5, ESessionsListed({}));
  }

  lemma NothingListed(p: Pool, engine: Id, endpoint: Endpoint, fingerprint: string, now: int, n: nat)
    requires n > 0
    ensures SurfaceListed(Listing(p, engine, endpoint, fingerprint, now, n), {}, {}) ==
            Listing(p, engine, endpoint, fingerprint, now, n - 1)
  {
    assert AddOwner(p.sessionOwnership, {}, engine) == p.sessionOwnership;
    var none: set<string> := {};
    assert none + none == none;
  }

  lemma NothingRuns(start: Pool, p: Pool, engine: Id, endpoint: Endpoint, fingerprint: string, now: int)
    requires Reaches(start, Listing(p, engine, endpoint, fingerprint, now, 4))
    ensures Reaches(start, Listing(p, engine, endpoint, fingerprint, now, 0))
  {
    hide Reaches, Listing, SurfaceListed;
    for i := 0 to 4
      invariant Reaches(start, Listing(p, engine, endpoint, fingerprint, now, 4 - i))
    {
      ReachesNext(start, Listing(p, engine, endpoint, fingerprint, now, 4 - i), ESurfaceListed({}, {}));
      NothingListed(p, engine, endpoint, fingerprint, now, 4 - i);
    }
  }

  /** A forced rollover whose hooks all succeed and find nothing running reaches the flip. */
  lemma StandbyReady(start: Pool, p: Pool, engine: Generation, endpoint: Endpoint, fingerprint: string, now: int)
    requires Reaches(start, p) && p.inFlight.None? && !p.disposed
    requires Find(p.generations, Draining).None? && Find(p.generations, Primary) == Some(engine)
    requires engine.fingerprint != fingerprint
    ensures Reaches(start, Listing(p, engine.id, endpoint, fingerprint, now, 0))
  {
    StandbySpawning(start, p, engine, fingerprint, now);
    StandbyListing(start, p, engine.id, endpoint, fingerprint, now);
    NothingRuns(start, p, engine.id, endpoint, fingerprint, now);
  }

  lemma {:induction false} FoundAt(gens: seq<Generation>, i: nat)
    requires i < |gens| && forall j | 0 <= j < i :: gens[j].id != gens[i].id
    ensures FindId(gens, gens[i].id) == Some(gens[i])
  {
    if i > 0 { FoundAt(gens[1..], i - 1); }
  }

  /** The list after the flip of a rollover whose old engine is the last entry. */
  function FlippedAway(p: Pool, endpoint: Endpoint, fingerprint: string, deadline: int): seq<Generation>
    requires p.generations != []
  {
    var n := |p.generations| - 1;
    p.generations[..n] + [p.generations[n].(status := Draining, drainDeadline := Some(deadline)),
                          Generation(p.nextId, endpoint, Primary, fingerprint, None)]
  }

  /** Assigning to either of the last two entries of a list. */
  lemma AssignTwo(init: seq<Generation>, e: Generation, f: Generation, status: Status, deadline: Option<int>)
    requires e.id != f.id && forall g <- init :: g.id != e.id && g.id != f.id
    ensures Assign(init + [e, f], e.id, status, deadline) == init + [e.(status := status, drainDeadline := deadline), f]
    ensures Assign(init + [e, f], f.id, status, deadline) == init + [e, f.(status := status, drainDeadline := deadline)]
    ensures StatusOf(init + [e, f], e.id) == e.status
  {
    var gens := init + [e, f];
    assert forall i | 0 <= i < |init| :: gens[i] == init[i] && gens[i] in init;
    FoundAt(gens, |init|);
  }

  lemma FlippedAwayIsFlip(p: Pool, endpoint: Endpoint, fingerprint: string, deadline: int)
    requires p.generations != [] && forall g <- p.generations :: g.id < p.nextId
    requires var n := |p.generations| - 1; forall i | 0 <= i < n :: p.generations[i].id != p.generations[n].id
    ensures var engine := p.generations[|p.generations| - 1].id;
      var gens := p.generations + [Generation(p.nextId, endpoint, Starting, fingerprint, None)];
      && FlippedList(gens, p.nextId, Some(engine), deadline) == FlippedAway(p, endpoint, fingerprint, deadline)
      && StatusOf(FlippedAway(p, endpoint, fingerprint, deadline), engine) == Draining
  {
    var n := |p.generations| - 1;
    var init, e := p.generations[..n], p.generations[n];
    assert e in p.generations;
    var f := Generation(p.nextId, endpoint, Starting, fingerprint, None);
    forall g | g in init ensures g.id != e.id && g.id != f.id {
      var i :| 0 <= i < n && init[i] == g;
      assert p.generations[i] == g;
    }
    assert p.generations + [f] == init + [e, f];
    hide Assign, StatusOf;
    AssignTwo(init, e, f, Primary, None);
    var f1 := f.(status := Primary);
    AssignTwo(init, e, f1, Draining, None);
    var e1 := e.(status := Draining, drainDeadline := None);
    AssignTwo(init, e1, f1, Draining, Some(deadline));
    AssignTwo(init, e1.(drainDeadline := Some(deadline)), f1, Draining, None);
  }

  /** A flip that hands over no session and no prompt, field by field. */
  lemma EmptyFlip(p: Pool, engine: Id, standby: Handle, now: int)
    requires p.inFlight == Some(ListingRequests(Some(engine), standby, {}, {}, 0))
    ensures var deadline := now + p.settings.drainTimeoutMs;
      var q := Flipped(p, now);
      && q.generations == FlippedList(p.generations, standby.id, Some(engine), deadline)
      && q == p.(generations := q.generations, config := PointedAt(p.config, standby.endpoint),
                 activeSessions := p.activeSessions[engine := {}], polls := q.polls, inFlight := Some(Settled))
      && (StatusOf(q.generations, engine) == Draining ==> q.polls == p.polls + multiset{engine})
  {
    hide Assign, StatusOf, PointedAt, AddOwner;
    var q := Flip(p, standby, Some(engine), {}, {});
    assert q.sessionOwnership == p.sessionOwnership && q.pinnedRequests == p.pinnedRequests by {
      NothingAdded(p.sessionOwnership, engine);
      NothingAdded(p.pinnedRequests, engine);
    }
    MonitorTouches(q, engine, now);
  }

  lemma NothingAdded(owners: map<string, Id>, id: Id)
    ensures AddOwner(owners, {}, id) == owners
  {
  }

  /** ... and the flip: the standby serves, the old engine drains under its first poll. */
  lemma StandbyFlips(start: Pool, p: Pool, endpoint: Endpoint, fingerprint: string, now: int)
    returns (q: Pool)
    requires Reaches(start, p) && p.inFlight.None? && p.pending.None? && !p.disposed
    requires p.generations != [] && forall g <- p.generations :: g.id < p.nextId
    requires var n := |p.generations| - 1; forall i | 0 <= i < n :: p.generations[i].id != p.generations[n].id
    requires var engine := p.generations[|p.generations| - 1];
      Find(p.generations, Draining).None? && Find(p.generations, Primary) == Some(engine) &&
      engine.fingerprint != fingerprint
    ensures Reaches(start, q)
    ensures var engine := p.generations[|p.generations| - 1].id;
      q == p.(generations := FlippedAway(p, endpoint, fingerprint, now + p.settings.drainTimeoutMs),
              config := PointedAt(p.config, endpoint),
              activeSessions := p.activeSessions[engine := {}],
              polls := p.polls + multiset{engine},
              lastSpawnAt := now, nextId := p.nextId + 1)
  {
    hide Reaches, FlippedAway, FlippedList, StatusOf, Find, PointedAt, Flipped;
    var engine := p.generations[|p.generations| - 1];
    StandbyReady(start, p, engine, endpoint, fingerprint, now);
    var p1 := Listing(p, engine.id, endpoint, fingerprint, now, 0);
    FlippedAwayIsFlip(p, endpoint, fingerprint, now + p.settings.drainTimeoutMs);
    ReachesNext(start, p1, EFlipped(now));
    var p2 := Flipped(p1, now);
    EmptyFlip(p1, engine.id, Handle(p.nextId, endpoint), now);
    ReachesNext(start, p2, ESettle);
    q := Settle(p2);
  }

  // ------------------------------------------------------------- the traces

  /** The first rollover of the started pool: `B` serves while `A` drains. */
  lemma FirstFlip() returns (p: Pool)
    ensures Reaches(Start(), p)
    ensures p.generations == [Generation(0, A, Draining, "f0", Some(900000)), Generation(1, B, Primary, "f1", None)]
    ensures p.inFlight.None? && p.pending.None? && p.recovery.None? && !p.disposed && p.disposal == []
    ensures p.polls == multiset{0} && p.closing == map[] && p.nextId == 2 && p.lastSpawnAt == 0
    ensures p.settings == Settings(900000, 30000)
  {
    ReachesSelf(Start());
    hide Reaches, PointedAt;
    p := StandbyFlips(Start(), Start(), B, "f1", 0);
  }

  lemma {:induction false} WithoutAbsent(gens: seq<Generation>, id: Id)
    requires forall g <- gens :: g.id != id
    ensures Without(gens, id) == gens
  {
    if gens != [] {
      assert gens == [gens[0]] + gens[1..];
      WithoutAbsent(gens[1..], id);
    }
  }

  lemma WithoutFirst(gens: seq<Generation>)
    requires gens != [] && forall g <- gens[1..] :: g.id != gens[0].id
    ensures Without(gens, gens[0].id) == gens[1..]
  {
    WithoutAbsent(gens[1..], gens[0].id);
  }

  /** A recovery's steps, up to its replacement's registration: the first engine leaves the
      list and `C` joins it. */
  lemma RecoverySteps(start: Pool, p1: Pool) returns (p: Pool)
    requires Reaches(start, p1) && p1.generations != [] && p1.recovery == Some(ClosingOld(p1.generations[0].id))
    requires forall g <- p1.generations[1..] :: g.id != p1.generations[0].id
    ensures Reaches(start, p) && p.inFlight == p1.inFlight
    ensures p.generations == p1.generations[1..] + [Generation(p1.nextId, C, Starting, "f1", None)]
    ensures p.recovery == Some(RegisteringReplacement(Handle(p1.nextId, C)))
  {
    hide Reaches, Without;
    WithoutFirst(p1.generations);
    ReachesNext(start, p1, EOldClosed(true));
    var p2 := OldClosed(p1, true);
    ReachesNext(start, p2, EReplacementSpawned(Some(C)));
    var p3 := ReplacementSpawned(p2, Some(C));
    ReachesNext(start, p3, EReplacementChecked(true, "f1"));
    p := ReplacementChecked(p3, true, "f1");
  }

  /** A recovery runs up to its replacement's registration while the rollover that spawned
      `B` collects the sessions of the engine the recovery drops. */
  lemma RecoveryMeanwhile() returns (p: Pool)
    ensures Reaches(Start(), p)
    ensures p.generations == [Generation(1, B, Starting, "f1", None), Generation(2, C, Starting, "f1", None)]
    ensures p.inFlight == Some(ListingRequests(Some(0), Handle(1, B), {}, {}, 0))
    ensures p.recovery == Some(RegisteringReplacement(Handle(2, C)))
  {
    ReachesSelf(Start());
    StandbyReady(Start(), Start(), Start().generations[0], B, "f1", 0);
    hide Reaches;
    var p0 := Listing(Start(), 0, B, "f1", 0, 0);
    ReachesNext(Start(), p0, ERecoveryStarted);
    var p1 := RecoveryStarted(p0);
    assert p1.generations == [Generation(0, A, Primary, "f0", None), Generation(1, B, Starting, "f1", None)];
    p := RecoverySteps(Start(), p1);
  }

  /** A recovery that overlaps a rollover leaves two primaries: both flips run. */
  lemma OverlappingRecovery() returns (p: Pool)
    ensures Reaches(Start(), p) && Count(p.generations, Primary) == 2
  {
    var p4 := RecoveryMeanwhile();
    hide Reaches, Start, Flipped, PointedAt;
    ReachesNext(Start(), p4, EReplacementRegistered);
    var p5 := ReplacementRegistered(p4);
    assert p5.generations == [Generation(1, B, Starting, "f1", None), Generation(2, C, Primary, "f1", None)];
    ReachesNext(Start(), p5, EFlipped(0));
    p := Flipped(p5, 0);
    EmptyFlip(p5, 0, Handle(1, B), 0);
    assert p.generations == [Generation(1, B, Primary, "f1", None), Generation(2, C, Primary, "f1", None)];
    assert Count(p.generations[1..], Primary) == 1;
  }

  lemma DisposeOne(p: Pool, g: Generation)
    requires p.generations == [g] && g.status == Primary && p.disposal == []
    ensures DisposeStarted(p) == p.(disposed := true, pending := None, disposal := [g.id])
  {
    assert p.generations[1..] == [] && Ids([], true) == [] && Ids([], false) == [];
    assert Ids(p.generations, true) == [] && Ids(p.generations, false) == [g.id];
  }

  lemma RetireOne(p: Pool, g: Generation)
    requires p.generations == [g] && g.status != Dead && p.disposal == [g.id]
    ensures var q := DisposeNext(p);
      && q.generations == [g.(status := Dead, drainDeadline := None)] && q.closing == p.closing[g.id := Shutdown]
      && q == p.(generations := q.generations, closing := q.closing, disposal := [], activeSessions := q.activeSessions,
                 sessionOwnership := q.sessionOwnership, pinnedRequests := q.pinnedRequests)
  {
    hide DropOwner;
  }

  lemma CloseOne(p: Pool, g: Generation)
    requires p.generations == [g] && g.id in p.closing && p.closing[g.id] == Shutdown
    requires p.inFlight.Some? && !p.inFlight.value.AwaitingDrain?
    ensures Closed(p, g.id) == p.(generations := [], closing := p.closing - {g.id})
  {
    WithoutFirst(p.generations);
    hide Without;
  }

  /** A disposal of a pool with one engine runs to its end while a rollover spawns. */
  lemma DisposeWhileSpawning(start: Pool, p0: Pool, g: Generation) returns (p: Pool)
    requires Reaches(start, p0) && p0.generations == [g] && g.status == Primary && p0.disposal == []
    requires p0.inFlight.Some? && p0.inFlight.value.Spawning?
    ensures Reaches(start, p) && p.disposed && p.disposal == [] && p.generations == []
    ensures p.inFlight == p0.inFlight && p.nextId == p0.nextId && p.lastSpawnAt == p0.lastSpawnAt
  {
    hide Reaches, DisposeStarted, DisposeNext, Closed;
    ReachesNext(start, p0, EDisposeStarted);
    DisposeOne(p0, g);
    var p1 := DisposeStarted(p0);
    ReachesNext(start, p1, EDisposeNext);
    RetireOne(p1, g);
    var p2 := DisposeNext(p1);
    ReachesNext(start, p2, EClosed(g.id));
    CloseOne(p2, p2.generations[0]);
    var p3 := Closed(p2, g.id);
    ReachesNext(start, p3, EDisposeEnded);
    p := DisposeEnded(p3);
  }

  /** The pool is disposed, to the end, while a rollover spawns its standby. */
  lemma DisposedSpawning() returns (p: Pool)
    ensures Reaches(Start(), p) && p.disposed && p.disposal == [] && p.generations == [] && p.nextId == 1
    ensures p == p.(inFlight := Some(Spawning("f1", Some(0))), lastSpawnAt := 0)
  {
    ReachesSelf(Start());
    var g := Start().generations[0];
    StandbySpawning(Start(), Start(), g, "f1", 0);
    var p0 := Start().(inFlight := Some(Spawning("f1", Some(0))), lastSpawnAt := 0);
    assert p0.generations == [g] && p0.disposal == [] && p0.nextId == 1;
    hide Reaches, Start;
    p := DisposeWhileSpawning(Start(), p0, g);
  }

  /** A disposal during a spawn: the standby ends up serving in a disposed pool that has
      nothing left to retire. */
  lemma DisposedDuringSpawn() returns (p: Pool)
    ensures Reaches(Start(), p) && p.disposed && p.disposal == [] && Count(p.generations, Primary) == 1
  {
    var p3 := DisposedSpawning();
    hide Reaches, Start, Flipped, PointedAt;
    StandbyListing(Start(), p3, 0, B, "f1", 0);
    NothingRuns(Start(), p3, 0, B, "f1", 0);
    var p4 := Listing(p3, 0, B, "f1", 0, 0);
    ReachesNext(Start(), p4, EFlipped(0));
    p := Flipped(p4, 0);
    EmptyFlip(p4, 0, Handle(1, B), 0);
    assert p4.generations == [Generation(1, B, Starting, "f1", None)];
    assert p.generations == [Generation(1, B, Primary, "f1", None)];
  }

  /** An idle poll of the first engine in the list retires it. */
  lemma PollRetiresFirst(p: Pool, now: int)
    requires p.generations != [] && p.generations[0].status == Draining && p.generations[0].id in p.polls
    requires forall g <- p.generations[1..] :: g.id != p.generations[0].id
    ensures var g := p.generations[0];
      var q := PollReturned(p, g.id, {}, now);
      && q.generations == [g.(status := Dead, drainDeadline := None)] + p.generations[1..]
      && q.closing == p.closing[g.id := Idle] && q.polls == p.polls - multiset{g.id}
      && q == p.(generations := q.generations, closing := q.closing, polls := q.polls,
                 activeSessions := q.activeSessions, sessionOwnership := q.sessionOwnership,
                 pinnedRequests := q.pinnedRequests)
  {
    hide UpdateActiveSessions, DropOwner;
    var g := p.generations[0];
    var r := UpdateActiveSessions(p.(polls := p.polls - multiset{g.id}), g.id, {});
    assert r == p.(polls := r.polls, activeSessions := r.activeSessions, sessionOwnership := r.sessionOwnership) &&
           r.polls == p.polls - multiset{g.id} by {
      UpdateFields(p.(polls := p.polls - multiset{g.id}), g.id, {});
    }
    assert StatusOf(r.generations, g.id) == Draining;
  }

  lemma UpdateFields(p: Pool, id: Id, sessions: set<string>)
    ensures var q := UpdateActiveSessions(p, id, sessions);
      && q == p.(activeSessions := q.activeSessions, sessionOwnership := q.sessionOwnership)
      && forall s <- sessions :: s in q.sessionOwnership && q.sessionOwnership[s] == id
  {
  }

  /** A poll that comes back after its engine was retired claims sessions all the same. */
  lemma PollClaims(p: Pool, id: Id, session: string, now: int)
    requires id in p.polls
    ensures var q := PollReturned(p, id, {session}, now);
      && q == p.(activeSessions := q.activeSessions, sessionOwnership := q.sessionOwnership, polls := q.polls, aborts := q.aborts)
      && session in q.sessionOwnership && q.sessionOwnership[session] == id
  {
    hide UpdateActiveSessions, PastDeadline;
    UpdateFields(p.(polls := p.polls - multiset{id}), id, {session});
  }

  /** Two drain ticks of one engine overlap; the second comes back after the first retired
      it, and hands a session to the dead engine. */
  lemma StalePoll() returns (p: Pool)
    ensures Reaches(Start(), p) && Serial(p)
    ensures "s" in p.sessionOwnership && StatusOf(p.generations, p.sessionOwnership["s"]) == Dead
  {
    var p0 := FirstFlip();
    hide Reaches, PollReturned, Start;
    ReachesNext(Start(), p0, ETickStarted(0));
    var p1 := TickStarted(p0, 0);
    assert p1.polls == multiset{0, 0};
    ReachesNext(Start(), p1, EPollReturned(0, {}, 1));
    PollRetiresFirst(p1, 1);
    var p2 := PollReturned(p1, 0, {}, 1);
    ReachesNext(Start(), p2, EPollReturned(0, {"s"}, 2));
    PollClaims(p2, 0, "s", 2);
    p := PollReturned(p2, 0, {"s"}, 2);
  }

  /** A manual request merged into the slot is lost when the run in flight parks. */
  lemma ParkedManualLost(parked: Request, manual: Request) returns (p: Pool, q: Pool)
    requires !parked.manual && !parked.forceStandby && manual.manual
    ensures Reaches(Start(), p) && p.pending == Some(Merge(manual, None))
    ensures Reaches(Start(), q) && q == Next(p, EBusyKnown(true, 60000)) && q.pending == Some(parked)
  {
    var p0 := FirstFlip();
    hide Reaches, Start;
    ReachesNext(Start(), p0, ERequest(parked));
    var p1 := RequestRollover(p0, parked);
    ReachesNext(Start(), p1, ERequest(manual));
    var p2 := RequestRollover(p1, manual);
    ReachesNext(Start(), p2, EPrepared("f2", 60000));
    p := Prepared(p2, "f2", 60000);
    assert p.inFlight == Some(ProbingBusy(parked, "f2", Some(1)));
    ReachesNext(Start(), p, EBusyKnown(true, 60000));
    q := BusyKnown(p, true, 60000);
  }

  /** Two rollovers in a row while the first engine, idle, is slow to close. */
  lemma SlowClose() returns (p: Pool)
    ensures Reaches(Start(), p) && p.inFlight.None? && p.recovery.None? && !p.disposed && 0 in p.closing
    ensures p.generations == [Generation(0, A, Dead, "f0", None),
                              Generation(1, B, Draining, "f1", Some(900010)), Generation(2, C, Primary, "f2", None)]
  {
    var p0 := FirstFlip();
    hide Reaches, PollReturned, PointedAt, Start;
    ReachesNext(Start(), p0, EPollReturned(0, {}, 1));
    PollRetiresFirst(p0, 1);
    var p1 := PollReturned(p0, 0, {}, 1);
    assert p1.generations == [Generation(0, A, Dead, "f0", None), Generation(1, B, Primary, "f1", None)];
    p := StandbyFlips(Start(), p1, C, "f2", 10);
  }

  /** A forced request that finds an engine draining goes to sleep. */
  lemma ForcedSleeps(p: Pool, fingerprint: string, now: int)
    requires p.inFlight.None? && !p.disposed && Find(p.generations, Draining).Some?
    requires Find(p.generations, Primary).Some? && Find(p.generations, Primary).value.fingerprint != fingerprint
    ensures Prepared(RequestRollover(p, Forced()), fingerprint, now) == p.(inFlight := Some(AwaitingDrain(Forced(), false)))
  {
    hide Find;
  }

  /** The slow close of an engine that drained earlier wakes a run that waits for the
      engine that drains now. */
  lemma SpuriousWake() returns (p: Pool)
    ensures Reaches(Start(), p) && Serial(p)
    ensures p.inFlight == Some(AwaitingDrain(Forced(), true)) && Count(p.generations, Draining) == 1
  {
    var p2 := SlowClose();
    assert Find(p2.generations, Draining) == Some(p2.generations[1]);
    assert Find(p2.generations, Primary) == Some(p2.generations[2]);
    hide Reaches, Start, Prepared, RequestRollover, Closed;
    ReachesNext(Start(), p2, ERequest(Forced()));
    ForcedSleeps(p2, "f3", 20);
    var p3 := RequestRollover(p2, Forced());
    ReachesNext(Start(), p3, EPrepared("f3", 20));
    var p4 := Prepared(p3, "f3", 20);
    ReachesNext(Start(), p4, EClosed(0));
    p := Closed(p4, 0);
    ClosedShape(p4, 0);
    WithoutFirst(p4.generations);
    assert Count(p.generations[1..], Draining) == 0;
  }

  // ------------------------------------------------------- exact conditions

  predicate OwnersRoutable(p: Pool) {
    forall s <- p.sessionOwnership :: StatusOf(p.generations, p.sessionOwnership[s]) in {Primary, Draining}
  }

  /** A poll keeps every owner routable exactly when its engine still drains, or when
      nothing runs on it: the status check the tick leaves out. */
  lemma PollKeepsRoutable(p: Pool, id: Id, remaining: set<string>, now: int)
    requires Inv(p) && Serial(p) && id in p.polls
    ensures OwnersRoutable(PollReturned(p, id, remaining, now)) <==>
            StatusOf(p.generations, id) == Draining || remaining == {}
  {
    InvOwnersRoutable(p);
    TicksRetired(p, id);
    if StatusOf(p.generations, id) == Draining {
      TableFinds(p.generations, id);
      PollReturnedKeeps(p, id, remaining, now);
      hide Inv, Serial, PollReturned, OwnersRoutable;
      InvOwnersRoutable(PollReturned(p, id, remaining, now));
    } else {
      hide Inv, Serial;
      LatePoll(p, id, remaining, now);
    }
  }

  lemma TicksRetired(p: Pool, id: Id)
    requires Inv(p) && id in p.polls
    ensures StatusOf(p.generations, id) in {Draining, Dead}
  {
    TableFinds(p.generations, id);
  }

  lemma LatePoll(p: Pool, id: Id, remaining: set<string>, now: int)
    requires id in p.polls && StatusOf(p.generations, id) == Dead && OwnersRoutable(p)
    ensures OwnersRoutable(PollReturned(p, id, remaining, now)) <==> remaining == {}
  {
    hide PastDeadline;
    var q := PollReturned(p, id, remaining, now);
    assert q.generations == p.generations;
    if remaining != {} {
      var s :| s in remaining;
      assert q.sessionOwnership[s] == id;
    } else {
      assert forall s <- q.sessionOwnership :: s in p.sessionOwnership && q.sessionOwnership[s] == p.sessionOwnership[s];
    }
  }

  lemma InvOwnersRoutable(p: Pool)
    requires Inv(p)
    ensures OwnersRoutable(p)
  {
    forall s <- p.sessionOwnership ensures StatusOf(p.generations, p.sessionOwnership[s]) in {Primary, Draining} {
      TableFinds(p.generations, p.sessionOwnership[s]);
    }
  }

  /** Every flag of `request` is also set in `slot`. */
  predicate Covers(slot: Request, request: Request) {
    && (request.manual ==> slot.manual)
    && (request.forceStandby ==> slot.forceStandby)
    && (request.awaitPostRefreshSync ==> slot.awaitPostRefreshSync)
  }

  lemma MergedCovers(p: Pool, events: seq<Event>, parked: Request)
    requires Coalescing(p, events) && p.pending.None? && Requests(events) != []
    ensures After(p, events).pending.Some?
    ensures Covers(parked, After(p, events).pending.value) <==> forall r <- Requests(events) :: Covers(parked, r)
  {
    hide Requests, After, Coalescing;
    SlotMergesAll(p, events);
  }

  /** A run parks after requests were merged into its slot. The next run is for the parked
      request alone: the reasons and workspaces of the merged ones are lost, and their flags
      all survive exactly when the parked request carries those of the slot they made. */
  lemma ParkDropsMerged(p: Pool, events: seq<Event>, now: int)
    requires Coalescing(p, events) && p.pending.None? && Requests(events) != []
    requires var q := After(p, events);
      q.inFlight.Some? && q.inFlight.value.ProbingBusy? && BusyKnown(q, true, now).inFlight == Some(Settled)
    ensures var q := After(p, events);
      var parked, next := q.inFlight.value.request, Settle(BusyKnown(q, true, now));
      && next.inFlight == Some(Preparing(parked)) && next.pending.None?
      && q.pending.Some?
      && (Covers(parked, q.pending.value) <==> forall r <- Requests(events) :: Covers(parked, r))
  {
    var q := After(p, events);
    CoalescingAlive(p, events);
    MergedCovers(p, events, q.inFlight.value.request);
    hide After, Coalescing, Requests, Covers;
    ParkSettles(q, now);
  }

  lemma {:induction false} CoalescingAlive(p: Pool, events: seq<Event>)
    requires Coalescing(p, events)
    ensures !After(p, events).disposed
    decreases |events|
  {
    hide Next;
    if events != [] { CoalescingAlive(Next(p, events[0]), events[1..]); }
  }

  lemma ParkSettles(p: Pool, now: int)
    requires p.inFlight.Some? && p.inFlight.value.ProbingBusy? && !p.disposed
    requires BusyKnown(p, true, now).inFlight == Some(Settled)
    ensures Settle(BusyKnown(p, true, now)) ==
            p.(inFlight := Some(Preparing(p.inFlight.value.request)), pending := None)
  {
    ParkOutcome(p, now);
    hide BusyKnown, Merge;
  }

  lemma ParkOutcome(p: Pool, now: int)
    requires p.inFlight.Some? && p.inFlight.value.ProbingBusy? && BusyKnown(p, true, now).inFlight == Some(Settled)
    ensures BusyKnown(p, true, now) == p.(inFlight := Some(Settled), pending := Some(p.inFlight.value.request))
  {
    hide Find;
  }

  /** Answers that make a run park: the fingerprint differs, the engine is busy. */
  function ParkRound(fingerprint: string, now: int): seq<Event> {
    [EPrepared(fingerprint, now), EBusyKnown(true, now), ESettle]
  }

  function Rounds(n: nat, fingerprint: string, now: int): seq<Event> {
    if n == 0 then [] else ParkRound(fingerprint, now) + Rounds(n - 1, fingerprint, now)
  }

  /** The run that prepares in `p`, given these answers, parks. */
  predicate Parks(p: Pool, fingerprint: string, now: int) {
    var q := Prepared(p, fingerprint, now);
    && p.inFlight.Some? && p.inFlight.value.Preparing? && q.inFlight.Some? && q.inFlight.value.ProbingBusy?
    && BusyKnown(q, true, now).inFlight == Some(Settled)
  }

  lemma RoundReturns(p: Pool, fingerprint: string, now: int)
    requires Parks(p, fingerprint, now) && !p.disposed && p.pending.None?
    ensures After(p, ParkRound(fingerprint, now)) == p
  {
    var q := Prepared(p, fingerprint, now);
    var r := BusyKnown(q, true, now);
    assert q == p.(inFlight := q.inFlight) && q.inFlight.value.request == p.inFlight.value.request;
    ParkSettles(q, now);
    var round := ParkRound(fingerprint, now);
    assert round[1..] == [EBusyKnown(true, now), ESettle] && round[1..][1..] == [ESettle] && [ESettle][1..] == [];
    assert After(r, [ESettle]) == After(Settle(r), []);
    assert After(q, round[1..]) == After(r, [ESettle]);
  }

  /** A parked request does not wait for the drain: the run starts over at once, and while the
      answers stay the same it parks again, any number of times. */
  lemma {:induction false} ParkRepeats(p: Pool, fingerprint: string, now: int, n: nat)
    requires Parks(p, fingerprint, now) && !p.disposed && p.pending.None?
    ensures After(p, Rounds(n, fingerprint, now)) == p
  {
    if n > 0 {
      RoundReturns(p, fingerprint, now);
      AfterConcat(p, ParkRound(fingerprint, now), Rounds(n - 1, fingerprint, now));
      ParkRepeats(p, fingerprint, now, n - 1);
    }
  }

  lemma {:induction false} AfterConcat(p: Pool, a: seq<Event>, b: seq<Event>)
    ensures After(p, a + b) == After(After(p, a), b)
    decreases |a|
  {
    hide Next;
    if a == [] {
      assert a + b == b;
    } else {
      assert (a + b)[0] == a[0] && (a + b)[1..] == a[1..] + b;
      AfterConcat(Next(p, a[0]), a[1..], b);
    }
  }
}
