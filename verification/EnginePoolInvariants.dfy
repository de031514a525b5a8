/** What every step of the engine pool keeps, and safety over whole runs. */
module EnginePoolInvariants {
  import opened Wrappers
  import opened EnginePoolFrames
  import opened EnginePoolModel

  // -------------------------------------------------------------- hypotheses

  /** No rollover overlaps a dead-primary recovery or a disposal. The code shares no
      lock between them; `EnginePoolLimits` shows what overlapping them does. */
  ghost predicate Serial(p: Pool) {
    && !(p.inFlight.Some? && p.recovery.Some?)
    && !(p.inFlight.Some? && p.disposed)
    && !(p.recovery.Some? && p.disposed)
  }

  /** A drain poll never comes back after its generation was retired (drain ticks of
      one generation that do not overlap guarantee it, see `DisjointTicksAreFresh`). */
  ghost predicate Fresh(p: Pool, e: Event) {
    e.EPollReturned? && e.id in p.polls ==> StatusOf(p.generations, e.id) == Draining
  }

  ghost predicate SerialRun(p: Pool, events: seq<Event>)
    decreases |events|
  {
    Serial(p) && (events == [] || (Fresh(p, events[0]) && SerialRun(Next(p, events[0]), events[1..])))
  }

  // --------------------------------------------------------------- invariants

  type Table = map<Id, Generation>

  /** The generation list by id (the first entry with an id wins, as in `find`). */
  ghost function TableOf(gens: seq<Generation>): Table {
    if gens == [] then map[] else TableOf(gens[1..])[gens[0].id := gens[0]]
  }

  ghost predicate DistinctIds(gens: seq<Generation>) {
    forall i, j | 0 <= i < j < |gens| :: gens[i].id != gens[j].id
  }

  ghost predicate Has(t: Table, id: Id, status: Status) {
    id in t && t[id].status == status
  }

  ghost predicate NoneIs(t: Table, status: Status) {
    forall id <- t :: t[id].status != status
  }

  ghost predicate AtMostOne(t: Table, status: Status) {
    forall a, b | a in t && b in t && t[a].status == status && t[b].status == status :: a == b
  }

  /** One primary, one draining engine and one standby at most. */
  ghost predicate Roles(t: Table, closing: map<Id, Cause>, nextId: Id) {
    && (forall id <- t :: id < nextId)
    && (forall id <- closing :: id < nextId)
    && AtMostOne(t, Primary)
    && AtMostOne(t, Draining)
    && AtMostOne(t, Starting)
    && (forall id <- t :: t[id].status == Dead <==> id in closing)
  }

  /** The primary captured by the suspended run, if that run has captured one. */
  ghost function Captured(run: Run): Option<Option<Id>> {
    match run
    case ProbingBusy(_, _, primary) => Some(primary)
    case Reloading(_, primary) => Some(primary)
    case Spawning(_, primary) => Some(primary)
    case CheckingHealth(primary, _) => Some(primary)
    case Registering(primary, _) => Some(primary)
    case ListingSessions(primary, _) => Some(primary)
    case ListingRequests(primary, _, _, _, _) => Some(primary)
    case _ => None
  }

  /** The standby the suspended run or recovery has put in the list. */
  ghost function Standby(inFlight: Option<Run>, recovery: Option<Recovery>): Option<Handle> {
    if inFlight.Some? then
      match inFlight.value
      case CheckingHealth(_, standby) => Some(standby)
      case Registering(_, standby) => Some(standby)
      case ListingSessions(_, standby) => Some(standby)
      case ListingRequests(_, standby, _, _, _) => Some(standby)
      case _ => None
    else if recovery.Some? && recovery.value.RegisteringReplacement? then
      Some(recovery.value.replacement)
    else None
  }

  ghost predicate Committed(run: Run) {
    run.Spawning? || run.CheckingHealth? || run.Registering? || run.ListingSessions? || run.ListingRequests?
  }

  /** `id` is the current primary, or there is none. */
  ghost predicate IsPrimary(t: Table, id: Option<Id>) {
    if id.Some? then Has(t, id.value, Primary) else NoneIs(t, Primary)
  }

  /** What the suspended continuations remember is still true. */
  ghost predicate Continuations(t: Table, inFlight: Option<Run>, recovery: Option<Recovery>) {
    && (inFlight.Some? && Captured(inFlight.value).Some? ==> IsPrimary(t, Captured(inFlight.value).value))
    && (inFlight.Some? && Committed(inFlight.value) ==> NoneIs(t, Draining))
    && (recovery.Some? && recovery.value.ClosingOld? ==> Has(t, recovery.value.previous, Primary))
    && (recovery.Some? && !recovery.value.ClosingOld? ==> NoneIs(t, Primary))
  }

  /** A disposed pool still has to retire whatever is not dead. */
  ghost predicate Disposal(t: Table, disposed: bool, disposal: seq<Id>) {
    && (disposed ==> forall id <- t :: t[id].status == Dead || id in disposal)
    && (disposal != [] ==> disposed)
  }

  /** The one starting generation is the standby somebody is waiting for. */
  ghost predicate Standbys(t: Table, standby: Option<Handle>) {
    && (forall id <- t | t[id].status == Starting :: standby == Some(Handle(id, t[id].endpoint)))
    && (standby.Some? ==> Has(t, standby.value.id, Starting))
  }

  /** The old primary whose sessions the run is collecting, just before the flip. */
  ghost predicate Collecting(inFlight: Option<Run>, id: Id) {
    inFlight.Some? && inFlight.value.ListingRequests? && inFlight.value.primary == Some(id)
  }

  ghost predicate Owner(t: Table, inFlight: Option<Run>, id: Id) {
    Has(t, id, Draining) || (Has(t, id, Primary) && Collecting(inFlight, id))
  }

  /** Sessions are owned by routable engines only. */
  ghost predicate Owners(t: Table, inFlight: Option<Run>, sessionOwnership: map<string, Id>) {
    forall s <- sessionOwnership :: Owner(t, inFlight, sessionOwnership[s])
  }

  /** Prompts are pinned to, and activity is recorded for, draining engines only. */
  ghost predicate Drained(t: Table, pinnedRequests: map<string, Id>, activeSessions: map<Id, set<string>>) {
    && (forall r <- pinnedRequests :: Has(t, pinnedRequests[r], Draining))
    && (forall id <- activeSessions :: Has(t, id, Draining))
  }

  /** A session recorded active on an engine is owned by it. */
  ghost predicate ActiveOwned(activeSessions: map<Id, set<string>>, sessionOwnership: map<string, Id>) {
    forall id <- activeSessions, s <- activeSessions[id] :: s in sessionOwnership && sessionOwnership[s] == id
  }

  /** Requests reach the engine at `endpoint`. */
  ghost predicate Points(config: Config, endpoint: Endpoint) {
    && config.endpoint == endpoint
    && forall w <- config.workspaces | !w.remote :: w.endpoint == endpoint
  }

  ghost predicate ConfigFollows(t: Table, config: Config) {
    forall id <- t | t[id].status == Primary :: Points(config, t[id].endpoint)
  }

  ghost predicate Deadlines(t: Table) {
    forall id <- t | t[id].status == Draining :: t[id].drainDeadline.Some?
  }

  /** Only an engine that drains, or drained, is polled or has its sessions aborted. */
  ghost predicate Ticks(t: Table, polls: multiset<Id>, aborts: multiset<Id>, nextId: Id) {
    forall id | id in polls || id in aborts :: id < nextId && (id in t ==> t[id].status in {Draining, Dead})
  }

  /** A run asleep in waitForDrain has an engine whose retirement will wake it. */
  ghost predicate WaiterBacked(t: Table, inFlight: Option<Run>) {
    inFlight.Some? && inFlight.value.AwaitingDrain? && !inFlight.value.resumed ==>
      exists id <- t :: t[id].status in {Draining, Dead}
  }

  /** What the pool keeps, in terms of its generations by id. */
  ghost predicate Holds(t: Table, p: Pool) {
    && Roles(t, p.closing, p.nextId)
    && Continuations(t, p.inFlight, p.recovery)
    && Standbys(t, Standby(p.inFlight, p.recovery))
    && Disposal(t, p.disposed, p.disposal)
    && Owners(t, p.inFlight, p.sessionOwnership)
    && Drained(t, p.pinnedRequests, p.activeSessions)
    && ActiveOwned(p.activeSessions, p.sessionOwnership)
    && Deadlines(t)
    && Ticks(t, p.polls, p.aborts, p.nextId)
    && WaiterBacked(t, p.inFlight)
    && (p.pending.Some? ==> p.inFlight.Some?)
  }

  ghost predicate Inv(p: Pool) {
    DistinctIds(p.generations) && Holds(TableOf(p.generations), p)
  }

  // --------------------------------------------------------- facts on the list

  /** The table as it is after an assignment to one generation. */
  ghost function Updated(t: Table, id: Id, status: Status, deadline: Option<int>): Table {
    if id in t then t[id := t[id].(status := status, drainDeadline := deadline)] else t
  }

  lemma {:induction false} TableKeys(gens: seq<Generation>)
    ensures forall id <- TableOf(gens) :: TableOf(gens)[id].id == id && TableOf(gens)[id] in gens
    ensures forall g <- gens :: g.id in TableOf(gens)
  {
    if gens != [] { TableKeys(gens[1..]); }
  }

  lemma {:induction false} TableMember(gens: seq<Generation>, i: nat)
    requires DistinctIds(gens) && i < |gens|
    ensures gens[i].id in TableOf(gens) && TableOf(gens)[gens[i].id] == gens[i]
  {
    if i > 0 { TableMember(gens[1..], i - 1); }
  }

  lemma {:induction false} TableFinds(gens: seq<Generation>, id: Id)
    ensures FindId(gens, id) == if id in TableOf(gens) then Some(TableOf(gens)[id]) else None
  {
    if gens != [] { TableFinds(gens[1..], id); }
  }

  lemma {:induction false} TableAssign(gens: seq<Generation>, id: Id, status: Status, deadline: Option<int>)
    ensures TableOf(Assign(gens, id, status, deadline)) == Updated(TableOf(gens), id, status, deadline)
  {
    if gens != [] {
      var rest := Assign(gens[1..], id, status, deadline);
      assert Assign(gens, id, status, deadline)[1..] == rest;
      TableAssign(gens[1..], id, status, deadline);
    }
  }

  lemma AssignDistinct(gens: seq<Generation>, id: Id, status: Status, deadline: Option<int>)
    requires DistinctIds(gens)
    ensures DistinctIds(Assign(gens, id, status, deadline))
  {
    var r := Assign(gens, id, status, deadline);
    forall i | 0 <= i < |r| ensures r[i].id == gens[i].id {}
  }

  lemma {:induction false} TableFingerprinted(gens: seq<Generation>, id: Id, fingerprint: string)
    ensures DistinctIds(gens) ==> DistinctIds(Fingerprinted(gens, id, fingerprint))
    ensures TableOf(Fingerprinted(gens, id, fingerprint)) ==
      if id in TableOf(gens) then TableOf(gens)[id := TableOf(gens)[id].(fingerprint := fingerprint)]
      else TableOf(gens)
  {
    if gens != [] {
      assert Fingerprinted(gens, id, fingerprint)[1..] == Fingerprinted(gens[1..], id, fingerprint);
      TableFingerprinted(gens[1..], id, fingerprint);
    }
  }

  lemma {:induction false} WithoutMembers(gens: seq<Generation>, id: Id)
    ensures forall g <- Without(gens, id) :: g in gens && g.id != id
  {
    if gens != [] { WithoutMembers(gens[1..], id); }
  }

  lemma {:induction false} WithoutDistinct(gens: seq<Generation>, id: Id)
    requires DistinctIds(gens)
    ensures DistinctIds(Without(gens, id))
  {
    if gens != [] {
      WithoutDistinct(gens[1..], id);
      var rest := Without(gens[1..], id);
      WithoutMembers(gens[1..], id);
      forall i | 0 <= i < |rest| ensures rest[i].id != gens[0].id {
        var j :| 0 <= j < |gens[1..]| && gens[1..][j] == rest[i];
        assert gens[j + 1] == rest[i];
      }
    }
  }

  lemma {:induction false} TableWithout(gens: seq<Generation>, id: Id)
    requires DistinctIds(gens)
    ensures DistinctIds(Without(gens, id))
    ensures TableOf(Without(gens, id)) == TableOf(gens) - {id}
  {
    WithoutDistinct(gens, id);
    if gens != [] {
      TableWithout(gens[1..], id);
      var rest := Without(gens[1..], id);
      if gens[0].id == id {
        assert Without(gens, id) == rest;
      } else {
        assert Without(gens, id)[1..] == rest;
      }
    }
  }

  lemma {:induction false} TableAppend(gens: seq<Generation>, g: Generation)
    requires g.id !in TableOf(gens)
    ensures TableOf(gens + [g]) == TableOf(gens)[g.id := g]
  {
    if gens == [] {
      assert gens + [g] == [g];
    } else {
      assert (gens + [g])[1..] == gens[1..] + [g];
      TableAppend(gens[1..], g);
    }
  }

  lemma AppendDistinct(gens: seq<Generation>, g: Generation)
    requires DistinctIds(gens) && g.id !in TableOf(gens)
    ensures DistinctIds(gens + [g])
  {
    TableKeys(gens);
    forall i | 0 <= i < |gens| ensures gens[i].id != g.id { assert gens[i] in gens; }
  }

  // ------------------------------------------------- what the table operations keep

  /** Dropping a generation that neither serves nor drains. */
  lemma DropKeeps(t: Table, id: Id, closing: map<Id, Cause>, nextId: Id, inFlight: Option<Run>,
                  recovery: Option<Recovery>)
    requires Roles(t, closing, nextId) && Continuations(t, inFlight, recovery) && Deadlines(t)
    requires id in t ==> t[id].status == Dead || t[id].status == Starting
    ensures Roles(t - {id}, closing - {id}, nextId)
    ensures Continuations(t - {id}, inFlight, recovery) && Deadlines(t - {id})
  {
  }

  lemma DropKeepsOwners(t: Table, id: Id, inFlight: Option<Run>, owners: map<string, Id>,
                        pins: map<string, Id>, active: map<Id, set<string>>)
    requires Owners(t, inFlight, owners) && Drained(t, pins, active)
    requires id in t ==> t[id].status == Dead || t[id].status == Starting
    ensures Owners(t - {id}, inFlight, owners) && Drained(t - {id}, pins, active)
  {
  }

  /** A standby joins the list under a fresh id. */
  lemma StandbyKeeps(t: Table, g: Generation, p: Pool)
    requires Roles(t, p.closing, p.nextId) && Deadlines(t)
    requires NoneIs(t, Starting) && g.id == p.nextId && g.status == Starting
    ensures var t' := t[g.id := g];
      && Roles(t', p.closing, p.nextId + 1) && Deadlines(t')
      && Standbys(t', Some(Handle(g.id, g.endpoint)))
  {
  }

  lemma StandbyKeepsOwners(t: Table, g: Generation, p: Pool, inFlight: Option<Run>, after: Option<Run>)
    requires Owners(t, inFlight, p.sessionOwnership) && Drained(t, p.pinnedRequests, p.activeSessions)
    requires g.id !in t && (inFlight.Some? ==> !inFlight.value.ListingRequests?)
    ensures var t' := t[g.id := g];
      Owners(t', after, p.sessionOwnership) && Drained(t', p.pinnedRequests, p.activeSessions)
  {
  }

  /** A retired generation stays in the list, dead, and owns nothing. */
  lemma RetireKeepsRoles(t: Table, id: Id, closing: map<Id, Cause>, cause: Cause, nextId: Id)
    requires Roles(t, closing, nextId) && id in t
    ensures Roles(Updated(t, id, Dead, None), closing[id := cause], nextId)
  {
  }

  lemma RetireKeepsContinuations(t: Table, id: Id, inFlight: Option<Run>, recovery: Option<Recovery>)
    requires Continuations(t, inFlight, recovery) && Deadlines(t)
    requires Standbys(t, Standby(inFlight, recovery))
    requires id in t
    requires t[id].status == Draining || (inFlight.None? && recovery.None?)
    ensures var t' := Updated(t, id, Dead, None);
      && Continuations(t', inFlight, recovery) && Deadlines(t')
      && Standbys(t', Standby(inFlight, recovery))
  {
  }

  lemma RetireKeepsOwners(t: Table, id: Id, inFlight: Option<Run>, owners: map<string, Id>,
                          pins: map<string, Id>, active: map<Id, set<string>>)
    requires Owners(t, inFlight, owners) && Drained(t, pins, active) && ActiveOwned(active, owners)
    requires id in t
    ensures var t' := Updated(t, id, Dead, None);
      && Owners(t', inFlight, DropOwner(owners, id)) && Drained(t', DropOwner(pins, id), active - {id})
      && ActiveOwned(active - {id}, DropOwner(owners, id))
  {
  }

  /** After a poll of the draining engine `id` it owns exactly the running sessions. */
  lemma PollKeepsOwners(p: Pool, t: Table, id: Id, sessions: set<string>)
    requires Owners(t, p.inFlight, p.sessionOwnership) && Drained(t, p.pinnedRequests, p.activeSessions)
    requires ActiveOwned(p.activeSessions, p.sessionOwnership) && AtMostOne(t, Draining)
    requires Has(t, id, Draining)
    ensures var q := UpdateActiveSessions(p, id, sessions);
      && Owners(t, q.inFlight, q.sessionOwnership) && Drained(t, q.pinnedRequests, q.activeSessions)
      && ActiveOwned(q.activeSessions, q.sessionOwnership)
  {
  }

  /** The table after a flip, with the drain deadline of the demoted engine. */
  ghost function FlippedTable(t: Table, next: Id, previous: Option<Id>, deadline: Option<int>): Table {
    var promoted := Updated(t, next, Primary, None);
    if previous.Some? then Updated(promoted, previous.value, Draining, deadline) else promoted
  }

  lemma FlipKeepsRoles(t: Table, next: Id, previous: Option<Id>, deadline: Option<int>,
                       closing: map<Id, Cause>, nextId: Id)
    requires Roles(t, closing, nextId)
    requires Has(t, next, Starting) && IsPrimary(t, previous)
    requires previous.Some? ==> NoneIs(t, Draining)
    ensures Roles(FlippedTable(t, next, previous, deadline), closing, nextId)
  {
    var t' := FlippedTable(t, next, previous, deadline);
    assert t'.Keys == t.Keys;
    assert forall id <- t ::
      t'[id].status == (if Some(id) == previous then Draining else if id == next then Primary else t[id].status);
    assert AtMostOne(t', Starting);
  }

  lemma FlipPromotes(t: Table, next: Handle, previous: Option<Id>, deadline: Option<int>, config: Config)
    requires Deadlines(t) && Standbys(t, Some(next)) && IsPrimary(t, previous) && AtMostOne(t, Primary)
    requires previous.Some? ==> deadline.Some?
    ensures var t' := FlippedTable(t, next.id, previous, deadline);
      && Deadlines(t') && Has(t', next.id, Primary) && Standbys(t', None)
      && ConfigFollows(t', PointedAt(config, next.endpoint))
  {
  }

  lemma FlipKeepsOwners(t: Table, next: Handle, previous: Id, deadline: Option<int>, inFlight: Option<Run>,
                        after: Option<Run>, p: Pool, sessions: set<string>, requests: set<string>)
    requires Owners(t, inFlight, p.sessionOwnership) && Drained(t, p.pinnedRequests, p.activeSessions)
    requires Has(t, previous, Primary) && AtMostOne(t, Primary) && NoneIs(t, Draining)
    requires next.id != previous
    ensures var t' := FlippedTable(t, next.id, Some(previous), deadline);
      var owners := AddOwner(p.sessionOwnership, sessions, previous);
      && Owners(t', after, owners)
      && Drained(t', AddOwner(p.pinnedRequests, requests, previous), p.activeSessions[previous := sessions])
      && ActiveOwned(p.activeSessions[previous := sessions], owners)
  {
  }

  // ------------------------------------------------------------ step by step

  lemma SpawnedTable(t: Table, p: Pool, handle: Endpoint)
    requires Holds(t, p) && Serial(p) && p.inFlight.Some? && p.inFlight.value.Spawning?
    ensures var g := Generation(p.nextId, handle, Starting, p.inFlight.value.fingerprint, None);
      g.id !in t && Holds(t[g.id := g], Spawned(p, Some(handle)))
  {
    var g := Generation(p.nextId, handle, Starting, p.inFlight.value.fingerprint, None);
    SpawnedKnows(t, p);
    hide Roles, Owners, Drained, ActiveOwned, Deadlines, Standbys;
    StandbyKeeps(t, g, p);
    StandbyKeepsOwners(t, g, p, p.inFlight, Spawned(p, Some(handle)).inFlight);
  }

  lemma SpawnedKnows(t: Table, p: Pool)
    requires Roles(t, p.closing, p.nextId) && Standbys(t, None)
    ensures p.nextId !in t && NoneIs(t, Starting)
  {
  }

  lemma SpawnedKeeps(p: Pool, handle: Option<Endpoint>)
    requires Inv(p) && Serial(p)
    ensures Inv(Spawned(p, handle))
  {
    if handle.Some? && p.inFlight.Some? && p.inFlight.value.Spawning? {
      hide Holds, DistinctIds;
      SpawnedTable(TableOf(p.generations), p, handle.value);
      var g := Generation(p.nextId, handle.value, Starting, p.inFlight.value.fingerprint, None);
      TableAppend(p.generations, g);
      AppendDistinct(p.generations, g);
    } else {
      hide Roles, Owners, Drained, ActiveOwned, Disposal, Ticks, Deadlines, Standbys, DistinctIds, TableOf;
      MoveKeeps(p, Spawned(p, handle));
    }
  }

  lemma HealthKnownTable(t: Table, p: Pool)
    requires Holds(t, p) && Serial(p) && p.inFlight.Some? && p.inFlight.value.CheckingHealth?
    ensures Holds(t - {p.inFlight.value.standby.id}, HealthKnown(p, false))
  {
    var id := p.inFlight.value.standby.id;
    StandbyGone(t, p, id);
    hide Roles, Owners, Drained, ActiveOwned, Deadlines, Standbys, Without;
    DropKeeps(t, id, p.closing, p.nextId, p.inFlight, p.recovery);
    DropKeepsOwners(t, id, p.inFlight, p.sessionOwnership, p.pinnedRequests, p.activeSessions);
    OwnersAfter(t - {id}, p.inFlight, Some(ClosingStandby), p.sessionOwnership);
  }

  lemma OwnersAfter(t: Table, inFlight: Option<Run>, after: Option<Run>, owners: map<string, Id>)
    requires Owners(t, inFlight, owners) && forall id | Collecting(inFlight, id) :: Collecting(after, id)
    ensures Owners(t, after, owners)
  {
  }

  lemma StandbyGone(t: Table, p: Pool, id: Id)
    requires Roles(t, p.closing, p.nextId) && Standbys(t, Standby(p.inFlight, p.recovery))
    requires Standby(p.inFlight, p.recovery).Some? && Standby(p.inFlight, p.recovery).value.id == id
    ensures Has(t, id, Starting) && Standbys(t - {id}, None) && p.closing - {id} == p.closing
  {
  }

  lemma HealthKnownKeeps(p: Pool, healthy: bool)
    requires Inv(p) && Serial(p)
    ensures Inv(HealthKnown(p, healthy))
  {
    if p.inFlight.Some? && p.inFlight.value.CheckingHealth? && !healthy {
      hide Holds, DistinctIds, Without;
      TableWithout(p.generations, p.inFlight.value.standby.id);
      HealthKnownTable(TableOf(p.generations), p);
    } else {
      hide Roles, Owners, Drained, ActiveOwned, Disposal, Ticks, Deadlines, Standbys, DistinctIds, TableOf;
      MoveKeeps(p, HealthKnown(p, healthy));
    }
  }

  lemma RefingerprintKeeps(t: Table, id: Id, fingerprint: string, p: Pool, inFlight: Option<Run>)
    requires id in t && Roles(t, p.closing, p.nextId) && Deadlines(t)
    requires Owners(t, inFlight, p.sessionOwnership) && Drained(t, p.pinnedRequests, p.activeSessions)
    requires Standbys(t, None)
    ensures var t' := t[id := t[id].(fingerprint := fingerprint)];
      && Roles(t', p.closing, p.nextId) && Deadlines(t')
      && Owners(t', inFlight, p.sessionOwnership) && Drained(t', p.pinnedRequests, p.activeSessions)
      && Standbys(t', None)
  {
  }

  lemma ReloadedTable(t: Table, p: Pool, id: Id)
    requires Holds(t, p) && Serial(p) && p.inFlight.Some? && p.inFlight.value.Reloading? && id in t
    requires p.inFlight.value.primary == Some(id)
    ensures Holds(t[id := t[id].(fingerprint := p.inFlight.value.fingerprint)], Reloaded(p, true))
  {
    var t' := t[id := t[id].(fingerprint := p.inFlight.value.fingerprint)];
    assert Disposal(t', p.disposed, p.disposal) && Ticks(t', p.polls, p.aborts, p.nextId);
    hide Roles, Owners, Drained, ActiveOwned, Deadlines, Standbys, Fingerprinted, Disposal, Ticks;
    RefingerprintKeeps(t, id, p.inFlight.value.fingerprint, p, p.inFlight);
    OwnersAfter(t', p.inFlight, Some(Settled), p.sessionOwnership);
  }

  lemma ReloadedKeeps(p: Pool, ok: bool)
    requires Inv(p) && Serial(p)
    ensures Inv(Reloaded(p, ok))
  {
    if ok && p.inFlight.Some? && p.inFlight.value.Reloading? && p.inFlight.value.primary.Some? {
      var id, fingerprint := p.inFlight.value.primary.value, p.inFlight.value.fingerprint;
      assert id in TableOf(p.generations);
      hide Holds, DistinctIds, Fingerprinted;
      TableFingerprinted(p.generations, id, fingerprint);
      ReloadedTable(TableOf(p.generations), p, id);
    } else {
      hide Roles, Owners, Drained, ActiveOwned, Disposal, Ticks, Deadlines, Standbys, DistinctIds, TableOf;
      MoveKeeps(p, Reloaded(p, ok));
    }
  }

  lemma RetireKeeps(p: Pool, id: Id, cause: Cause)
    requires Inv(p) && Serial(p)
    requires StatusOf(p.generations, id) != Dead ==> Has(TableOf(p.generations), id, Draining) || p.disposed
    ensures Inv(RetireStarted(p, id, cause))
    ensures forall g <- RetireStarted(p, id, cause).generations | g.id == id :: g.status == Dead
  {
    var t := TableOf(p.generations);
    TableFinds(p.generations, id);
    if StatusOf(p.generations, id) != Dead {
      TableAssign(p.generations, id, Dead, None);
      AssignDistinct(p.generations, id, Dead, None);
      RetireKeepsRoles(t, id, p.closing, cause, p.nextId);
      RetireKeepsContinuations(t, id, p.inFlight, p.recovery);
      RetireKeepsOwners(t, id, p.inFlight, p.sessionOwnership, p.pinnedRequests, p.activeSessions);
    }
  }

  lemma PollReturnedKeeps(p: Pool, id: Id, remaining: set<string>, now: int)
    requires Inv(p) && Serial(p) && Fresh(p, EPollReturned(id, remaining, now))
    ensures Inv(PollReturned(p, id, remaining, now))
  {
    if id in p.polls {
      var t, q := TableOf(p.generations), p.(polls := p.polls - multiset{id});
      TableFinds(p.generations, id);
      PollKeepsOwners(q, t, id, remaining);
      var u := UpdateActiveSessions(q, id, remaining);
      assert Inv(u);
      if remaining == {} { RetireKeeps(u, id, Idle); }
    }
  }

  lemma AbortsDoneKeeps(p: Pool, id: Id)
    requires Inv(p) && Serial(p)
    ensures Inv(AbortsDone(p, id))
  {
    if id in p.aborts {
      TableFinds(p.generations, id);
      RetireKeeps(p.(aborts := p.aborts - multiset{id}), id, Forced);
    }
  }

  /** The generation list after flip and, when there was a primary, startDrainMonitor. */
  ghost function FlippedList(gens: seq<Generation>, next: Id, previous: Option<Id>, deadline: int): seq<Generation> {
    var promoted := Assign(gens, next, Primary, None);
    if previous.None? then promoted
    else
      var demoted := Assign(promoted, previous.value, Draining, None);
      Assign(demoted, previous.value, StatusOf(demoted, previous.value), Some(deadline))
  }

  lemma FlippedListTable(gens: seq<Generation>, next: Id, previous: Option<Id>, deadline: int)
    requires DistinctIds(gens)
    ensures DistinctIds(FlippedList(gens, next, previous, deadline))
    ensures TableOf(FlippedList(gens, next, previous, deadline)) ==
            FlippedTable(TableOf(gens), next, previous, Some(deadline))
  {
    var promoted := Assign(gens, next, Primary, None);
    PromotedList(gens, next);
    if previous.Some? {
      var demoted := Assign(promoted, previous.value, Draining, None);
      TableAssign(promoted, previous.value, Draining, None);
      AssignDistinct(promoted, previous.value, Draining, None);
      TableFinds(demoted, previous.value);
      TableAssign(demoted, previous.value, StatusOf(demoted, previous.value), Some(deadline));
      AssignDistinct(demoted, previous.value, StatusOf(demoted, previous.value), Some(deadline));
    }
  }

  lemma PromotedList(gens: seq<Generation>, next: Id)
    requires DistinctIds(gens)
    ensures DistinctIds(Assign(gens, next, Primary, None))
    ensures TableOf(Assign(gens, next, Primary, None)) == FlippedTable(TableOf(gens), next, None, None)
  {
    TableAssign(gens, next, Primary, None);
    AssignDistinct(gens, next, Primary, None);
  }

  /** A flip without a predecessor: nothing is owned but by a draining engine. */
  lemma FirstFlipKeepsOwners(t: Table, next: Id, inFlight: Option<Run>, after: Option<Run>, p: Pool,
                             deadline: Option<int>)
    requires Owners(t, inFlight, p.sessionOwnership) && Drained(t, p.pinnedRequests, p.activeSessions)
    requires NoneIs(t, Primary) && Has(t, next, Starting)
    ensures var t' := FlippedTable(t, next, None, deadline);
      Owners(t', after, p.sessionOwnership) && Drained(t', p.pinnedRequests, p.activeSessions)
  {
  }

  /** Which fields a flip touches, and to what. */
  ghost predicate FlipOutcome(p: Pool, q: Pool, run: Run, deadline: int)
    requires run.ListingRequests?
  {
    && q.generations == FlippedList(p.generations, run.standby.id, run.primary, deadline)
    && q.config == PointedAt(p.config, run.standby.endpoint)
    && q.inFlight == Some(Settled)
    && q.sessionOwnership ==
         (if run.primary.Some? then AddOwner(p.sessionOwnership, run.sessions, run.primary.value)
          else p.sessionOwnership)
    && q.pinnedRequests ==
         (if run.primary.Some? then AddOwner(p.pinnedRequests, run.requests, run.primary.value)
          else p.pinnedRequests)
    && q.activeSessions ==
         (if run.primary.Some? then p.activeSessions[run.primary.value := run.sessions] else p.activeSessions)
    && q.aborts == p.aborts
    && (forall id | id in q.polls :: id in p.polls || run.primary == Some(id))
    && q.closing == p.closing && q.recovery == p.recovery && q.disposed == p.disposed
    && q.disposal == p.disposal && q.nextId == p.nextId
  }

  lemma FlippedOutcome(p: Pool, now: int)
    requires FlipReady(p)
    ensures FlipOutcome(p, Flipped(p, now), p.inFlight.value, now + p.settings.drainTimeoutMs)
  {
    var run := p.inFlight.value;
    var q := Flip(p, run.standby, run.primary, run.sessions, run.requests);
    if run.primary.Some? {
      MonitorTouches(q, run.primary.value, now);
    }
  }

  lemma FlipKeepsTicks(t: Table, next: Id, previous: Option<Id>, deadline: int, p: Pool, polls: multiset<Id>)
    requires Ticks(t, p.polls, p.aborts, p.nextId) && IsPrimary(t, previous) && Has(t, next, Starting)
    requires forall id <- t :: id < p.nextId
    requires forall id | id in polls :: id in p.polls || previous == Some(id)
    ensures Ticks(FlippedTable(t, next, previous, Some(deadline)), polls, p.aborts, p.nextId)
  {
  }

  /** What a run that is ready to flip knows of the list. */
  lemma FlipKnows(t: Table, p: Pool, run: Run)
    requires Holds(t, p) && p.inFlight == Some(run) && run.ListingRequests?
    ensures AtMostOne(t, Primary) && (forall id <- t :: id < p.nextId) && Has(t, run.standby.id, Starting)
    ensures IsPrimary(t, run.primary) && NoneIs(t, Draining) && Standbys(t, Some(run.standby))
    ensures run.primary.Some? ==> run.standby.id != run.primary.value
  {
    hide Owners, Drained, ActiveOwned, Deadlines, Ticks, Disposal, WaiterBacked;
  }

  lemma FlipTable(t: Table, t': Table, p: Pool, q: Pool, run: Run, deadline: int)
    requires Holds(t, p) && Serial(p) && p.inFlight == Some(run) && run.ListingRequests?
    requires FlipOutcome(p, q, run, deadline) && t' == FlippedTable(t, run.standby.id, run.primary, Some(deadline))
    ensures Holds(t', q)
  {
    hide FlippedList, PointedAt, AddOwner, Roles, Owners, Drained, ActiveOwned, AtMostOne, Deadlines, Ticks,
         FlippedTable, Has, NoneIs, Standbys, IsPrimary, ConfigFollows;
    FlipKnows(t, p, run);
    FlipKeepsRoles(t, run.standby.id, run.primary, Some(deadline), p.closing, p.nextId);
    FlipPromotes(t, run.standby, run.primary, Some(deadline), p.config);
    FlipKeepsTicks(t, run.standby.id, run.primary, deadline, p, q.polls);
    HasPrimary(t, run.primary);
    if run.primary.Some? {
      FlipKeepsOwners(t, run.standby, run.primary.value, Some(deadline), p.inFlight, q.inFlight, p,
                      run.sessions, run.requests);
    } else {
      FirstFlipKeepsOwners(t, run.standby.id, p.inFlight, q.inFlight, p, Some(deadline));
    }
  }

  lemma FlipOutcomeKeeps(p: Pool, q: Pool, run: Run, deadline: int)
    requires Inv(p) && Serial(p) && p.inFlight == Some(run) && run.ListingRequests?
    requires FlipOutcome(p, q, run, deadline)
    ensures Inv(q)
  {
    hide Holds, DistinctIds, FlippedList, FlippedTable, TableOf, PointedAt, AddOwner;
    FlippedListTable(p.generations, run.standby.id, run.primary, deadline);
    FlipTable(TableOf(p.generations), TableOf(q.generations), p, q, run, deadline);
  }

  lemma HasPrimary(t: Table, id: Option<Id>)
    requires IsPrimary(t, id)
    ensures if id.Some? then Has(t, id.value, Primary) else NoneIs(t, Primary)
  {
  }

  lemma FlippedKeeps(p: Pool, now: int)
    requires Inv(p) && Serial(p)
    ensures Inv(Flipped(p, now))
  {
    hide Inv, Serial, FlipOutcome;
    if FlipReady(p) {
      FlippedOutcome(p, now);
      FlipOutcomeKeeps(p, Flipped(p, now), p.inFlight.value, now + p.settings.drainTimeoutMs);
    }
  }

  lemma ReplacementRegisteredKeeps(p: Pool)
    requires Inv(p) && Serial(p)
    ensures Inv(ReplacementRegistered(p))
  {
    if p.recovery.Some? && p.recovery.value.RegisteringReplacement? {
      var t, next := TableOf(p.generations), p.recovery.value.replacement;
      assert NoneIs(t, Primary) && AtMostOne(t, Primary);
      hide PointedAt, Roles, Owners, Drained, ActiveOwned, DistinctIds, AtMostOne, Assign, NoneIs;
      PromotedList(p.generations, next.id);
      FlipKeepsRoles(t, next.id, None, None, p.closing, p.nextId);
      FlipPromotes(t, next, None, None, p.config);
      FirstFlipKeepsOwners(t, next.id, p.inFlight, p.inFlight, p, None);
    }
  }

  /** A closed engine was dead: nothing but the list changes, and a sleeping run wakes. */
  lemma ClosedShape(p: Pool, id: Id)
    requires id in p.closing && (p.pending.Some? ==> p.inFlight.Some?)
    ensures var q := Closed(p, id);
      && q.generations == Without(p.generations, id) && q.closing == p.closing - {id}
      && q == p.(generations := q.generations, closing := q.closing, inFlight := q.inFlight)
      && (if p.inFlight.Some? && p.inFlight.value.AwaitingDrain?
          then q.inFlight == Some(AwaitingDrain(p.inFlight.value.request, true)) else q.inFlight == p.inFlight)
  {
    hide Without;
  }

  lemma ClosedTable(t: Table, p: Pool, id: Id)
    requires Holds(t, p) && id in p.closing
    ensures Holds(t - {id}, Closed(p, id))
  {
    ClosedShape(p, id);
    DropKeeps(t, id, p.closing, p.nextId, p.inFlight, p.recovery);
    DropKeepsOwners(t, id, p.inFlight, p.sessionOwnership, p.pinnedRequests, p.activeSessions);
    hide Closed, Roles, Drained, ActiveOwned, Deadlines;
  }

  lemma ClosedKeeps(p: Pool, id: Id)
    requires Inv(p) && Serial(p)
    ensures Inv(Closed(p, id))
  {
    hide Holds, Without, DistinctIds;
    if id in p.closing {
      TableWithout(p.generations, id);
      ClosedTable(TableOf(p.generations), p, id);
    }
  }

  /** `find` agrees with the table. */
  lemma PrimaryFound(gens: seq<Generation>)
    requires DistinctIds(gens)
    ensures IsPrimary(TableOf(gens), PrimaryId(gens))
  {
    TableKeys(gens);
    FoundInTable(gens, Primary);
  }

  lemma DrainingFound(gens: seq<Generation>)
    requires DistinctIds(gens)
    ensures Find(gens, Draining).None? ==> NoneIs(TableOf(gens), Draining)
    ensures Find(gens, Draining).Some? ==> exists id <- TableOf(gens) :: TableOf(gens)[id].status == Draining
  {
    TableKeys(gens);
    FoundInTable(gens, Draining);
  }

  lemma FoundInTable(gens: seq<Generation>, status: Status)
    requires DistinctIds(gens)
    ensures var g := Find(gens, status); g.Some? ==> g.value.id in TableOf(gens) && TableOf(gens)[g.value.id] == g.value
  {
    var g := Find(gens, status);
    if g.Some? {
      var i :| 0 <= i < |gens| && gens[i] == g.value;
      TableMember(gens, i);
    }
  }

  /** Moving continuations along without touching the generations or the ownership maps. */
  lemma MoveKeeps(p: Pool, q: Pool)
    requires Inv(p)
    requires q == p.(inFlight := q.inFlight, pending := q.pending, lastSpawnAt := q.lastSpawnAt, recovery := q.recovery)
    requires Continuations(TableOf(p.generations), q.inFlight, q.recovery)
    requires Standby(q.inFlight, q.recovery) == Standby(p.inFlight, p.recovery)
    requires forall id | Collecting(p.inFlight, id) :: Collecting(q.inFlight, id)
    requires WaiterBacked(TableOf(p.generations), q.inFlight)
    requires q.pending.Some? ==> q.inFlight.Some?
    ensures Inv(q)
  {
  }

  /** Moving a run without a standby to another phase without one. */
  lemma RephaseKeeps(p: Pool, q: Pool, run: Run)
    requires Inv(p) && p.inFlight.Some? && p.recovery.None?
    requires Standby(p.inFlight, None).None? && Standby(Some(run), None).None?
    requires q == p.(inFlight := Some(run), pending := q.pending, lastSpawnAt := q.lastSpawnAt)
    requires Captured(run).Some? ==> IsPrimary(TableOf(p.generations), Captured(run).value)
    requires run.Spawning? ==> NoneIs(TableOf(p.generations), Draining)
    requires WaiterBacked(TableOf(p.generations), Some(run))
    ensures Inv(q)
  {
    hide Inv;
    MoveKeeps(p, q);
  }

  lemma DecideKeeps(p: Pool, request: Request, fingerprint: string, primary: Option<Id>, now: int)
    requires Inv(p) && p.inFlight.Some? && p.recovery.None? && Standby(p.inFlight, None).None?
    requires IsPrimary(TableOf(p.generations), primary)
    ensures Inv(Decide(p, request, fingerprint, primary, now))
  {
    DrainingFound(p.generations);
    var draining := Find(p.generations, Draining);
    hide Inv, Find, NoneIs, IsPrimary;
    if draining.Some? && request.forceStandby {
      RephaseKeeps(p, p.(inFlight := Some(AwaitingDrain(request, false))), AwaitingDrain(request, false));
    } else if draining.Some? ||
        (!request.manual && !request.forceStandby && now - p.lastSpawnAt < p.settings.minSpawnIntervalMs) {
      RephaseKeeps(p, p.(pending := Some(request), inFlight := Some(Settled)), Settled);
    } else {
      var run := Spawning(fingerprint, primary);
      RephaseKeeps(p, p.(lastSpawnAt := now, inFlight := Some(run)), run);
    }
  }

  lemma PreparedKeeps(p: Pool, fingerprint: string, now: int)
    requires Inv(p) && Serial(p)
    ensures Inv(Prepared(p, fingerprint, now))
  {
    assert IsPrimary(TableOf(p.generations), PrimaryId(p.generations)) by { PrimaryFound(p.generations); }
    hide Inv, Decide, IsPrimary, PrimaryId, Find;
    if p.inFlight.Some? && p.inFlight.value.Preparing? {
      var request, primary := p.inFlight.value.request, Find(p.generations, Primary);
      if !request.manual && primary.Some? && primary.value.fingerprint == fingerprint {
        RephaseKeeps(p, p.(inFlight := Some(Settled)), Settled);
      } else if request.forceStandby {
        DecideKeeps(p, request, fingerprint, PrimaryId(p.generations), now);
      } else {
        var run := ProbingBusy(request, fingerprint, PrimaryId(p.generations));
        RephaseKeeps(p, p.(inFlight := Some(run)), run);
      }
    }
  }

  lemma BusyKnownKeeps(p: Pool, busy: bool, now: int)
    requires Inv(p) && Serial(p)
    ensures Inv(BusyKnown(p, busy, now))
  {
    if p.inFlight.Some? && p.inFlight.value.ProbingBusy? {
      var run, q := p.inFlight.value, BusyKnown(p, busy, now);
      if busy {
        DecideKeeps(p, run.request, run.fingerprint, run.primary, now);
      } else {
        RephaseKeeps(p, q, q.inFlight.value);
      }
    }
  }

  lemma SurfaceListedKeeps(p: Pool, requests: set<string>, sessions: set<string>)
    requires Inv(p) && Serial(p)
    ensures Inv(SurfaceListed(p, requests, sessions))
  {
  }

  /** Routing changes nothing but the owner of one inactive session. */
  lemma RouteTouches(p: Pool, path: Path)
    requires Drained(TableOf(p.generations), p.pinnedRequests, p.activeSessions)
    requires ActiveOwned(p.activeSessions, p.sessionOwnership)
    ensures var q := RouteRequest(p, path).0;
      && q == p.(sessionOwnership := q.sessionOwnership)
      && (forall s <- q.sessionOwnership :: s in p.sessionOwnership && q.sessionOwnership[s] == p.sessionOwnership[s])
      && ActiveOwned(q.activeSessions, q.sessionOwnership)
  {
  }

  lemma RouteKeeps(p: Pool, path: Path)
    requires Inv(p)
    ensures Inv(RouteRequest(p, path).0)
  {
    RouteTouches(p, path);
    hide RouteRequest;
  }

  lemma ForwardKeeps(p: Pool, id: Id, payload: Payload)
    requires Inv(p)
    ensures Inv(ForwardEvent(p, id, payload).0)
  {
    TableFinds(p.generations, id);
  }

  lemma RecoveryStartedKeeps(p: Pool)
    requires Inv(p) && Serial(p) && Serial(RecoveryStarted(p))
    ensures Inv(RecoveryStarted(p))
  {
    PrimaryFound(p.generations);
    hide Roles, Owners, Drained, ActiveOwned, Disposal, Ticks, Deadlines, DistinctIds, TableOf, PrimaryId;
    MoveKeeps(p, RecoveryStarted(p));
  }

  /** The dead primary leaves the list, and nobody is primary. */
  lemma DropPrimaryKeeps(t: Table, id: Id, p: Pool)
    requires Roles(t, p.closing, p.nextId) && Deadlines(t) && Has(t, id, Primary)
    requires Owners(t, None, p.sessionOwnership) && Drained(t, p.pinnedRequests, p.activeSessions)
    requires Ticks(t, p.polls, p.aborts, p.nextId) && Standbys(t, None)
    ensures var t' := t - {id};
      && Roles(t', p.closing, p.nextId) && Deadlines(t') && NoneIs(t', Primary) && Standbys(t', None)
      && Owners(t', None, p.sessionOwnership) && Drained(t', p.pinnedRequests, p.activeSessions)
      && Ticks(t', p.polls, p.aborts, p.nextId)
  {
  }

  lemma OldClosedTable(t: Table, p: Pool)
    requires Holds(t, p) && Serial(p) && p.recovery.Some? && p.recovery.value.ClosingOld?
    ensures Holds(t - {p.recovery.value.previous}, OldClosed(p, true))
  {
    hide Roles, Owners, Drained, ActiveOwned, Ticks, Deadlines, Without, NoneIs, Standbys, Has;
    DropPrimaryKeeps(t, p.recovery.value.previous, p);
  }

  lemma OldClosedKeeps(p: Pool, ok: bool)
    requires Inv(p) && Serial(p)
    ensures Inv(OldClosed(p, ok))
  {
    if ok && p.recovery.Some? && p.recovery.value.ClosingOld? {
      hide Holds, DistinctIds, Without;
      TableWithout(p.generations, p.recovery.value.previous);
      OldClosedTable(TableOf(p.generations), p);
    } else {
      hide Roles, Owners, Drained, ActiveOwned, Disposal, Ticks, Deadlines, Standbys, DistinctIds, TableOf;
      MoveKeeps(p, OldClosed(p, ok));
    }
  }

  lemma ReplacementCheckedTable(t: Table, p: Pool, fingerprint: string)
    requires Holds(t, p) && Serial(p) && p.recovery.Some? && p.recovery.value.CheckingReplacement?
    ensures var g := Generation(p.nextId, p.recovery.value.endpoint, Starting, fingerprint, None);
      g.id !in t && Holds(t[g.id := g], ReplacementChecked(p, true, fingerprint))
  {
    var g := Generation(p.nextId, p.recovery.value.endpoint, Starting, fingerprint, None);
    SpawnedKnows(t, p);
    hide Roles, Owners, Drained, ActiveOwned, Deadlines, Standbys;
    StandbyKeeps(t, g, p);
    StandbyKeepsOwners(t, g, p, p.inFlight, p.inFlight);
  }

  lemma ReplacementCheckedKeeps(p: Pool, healthy: bool, fingerprint: string)
    requires Inv(p) && Serial(p)
    ensures Inv(ReplacementChecked(p, healthy, fingerprint))
  {
    if p.recovery.Some? && p.recovery.value.CheckingReplacement? && healthy {
      hide Holds, DistinctIds;
      ReplacementCheckedTable(TableOf(p.generations), p, fingerprint);
      var g := Generation(p.nextId, p.recovery.value.endpoint, Starting, fingerprint, None);
      TableAppend(p.generations, g);
      AppendDistinct(p.generations, g);
    } else {
      hide Roles, Owners, Drained, ActiveOwned, Disposal, Ticks, Deadlines, Standbys, DistinctIds, TableOf;
      MoveKeeps(p, ReplacementChecked(p, healthy, fingerprint));
    }
  }

  lemma {:induction false} IdsCover(gens: seq<Generation>, draining: bool, g: Generation)
    requires g in gens && (g.status == Draining) == draining
    ensures g.id in Ids(gens, draining)
  {
    if g != gens[0] { IdsCover(gens[1..], draining, g); }
  }

  lemma DisposeStartedKeeps(p: Pool)
    requires Inv(p) && Serial(DisposeStarted(p))
    ensures Inv(DisposeStarted(p))
  {
    var t := TableOf(p.generations);
    TableKeys(p.generations);
    forall id | id in t ensures id in Ids(p.generations, true) + Ids(p.generations, false) {
      IdsCover(p.generations, t[id].status == Draining, t[id]);
    }
  }

  lemma DisposeNextKeeps(p: Pool)
    requires Inv(p) && Serial(p)
    ensures Inv(DisposeNext(p))
  {
    if p.disposal != [] {
      var id := p.disposal[0];
      RetireKeeps(p, id, Shutdown);
      var q := RetireStarted(p, id, Shutdown);
      assert DisposeNext(p) == q.(disposal := p.disposal[1..]);
      TableFinds(q.generations, id);
      TableFinds(p.generations, id);
      TableKeys(q.generations);
    }
  }

  lemma DisposeEndedKeeps(p: Pool)
    requires Inv(p) && Serial(p)
    ensures Inv(DisposeEnded(p))
  {
  }

  lemma TickStartedKeeps(p: Pool, id: Id)
    requires Inv(p)
    ensures Inv(TickStarted(p, id))
  {
    TableFinds(p.generations, id);
  }

  lemma RequestKeeps(p: Pool, request: Request)
    requires Inv(p) && Serial(RequestRollover(p, request))
    ensures Inv(RequestRollover(p, request))
  {
    hide Roles, Owners, Drained, ActiveOwned, Disposal, Ticks, Deadlines, Standbys, DistinctIds, TableOf;
    MoveKeeps(p, RequestRollover(p, request));
  }

  lemma DrainResumedKeeps(p: Pool)
    requires Inv(p) && Serial(p)
    ensures Inv(DrainResumed(p))
  {
    hide Roles, Owners, Drained, ActiveOwned, Disposal, Ticks, Deadlines, Standbys, DistinctIds, TableOf;
    MoveKeeps(p, DrainResumed(p));
  }

  lemma StandbyClosedKeeps(p: Pool)
    requires Inv(p) && Serial(p)
    ensures Inv(StandbyClosed(p))
  {
    hide Roles, Owners, Drained, ActiveOwned, Disposal, Ticks, Deadlines, Standbys, DistinctIds, TableOf;
    MoveKeeps(p, StandbyClosed(p));
  }

  lemma RegisteredKeeps(p: Pool)
    requires Inv(p) && Serial(p)
    ensures Inv(Registered(p))
  {
    hide Roles, Owners, Drained, ActiveOwned, Disposal, Ticks, Deadlines, Standbys, DistinctIds, TableOf;
    MoveKeeps(p, Registered(p));
  }

  lemma SessionsListedKeeps(p: Pool, sessions: set<string>)
    requires Inv(p) && Serial(p)
    ensures Inv(SessionsListed(p, sessions))
  {
    hide Roles, Owners, Drained, ActiveOwned, Disposal, Ticks, Deadlines, Standbys, DistinctIds, TableOf;
    MoveKeeps(p, SessionsListed(p, sessions));
  }

  lemma ReplacementSpawnedKeeps(p: Pool, handle: Option<Endpoint>)
    requires Inv(p) && Serial(p)
    ensures Inv(ReplacementSpawned(p, handle))
  {
    hide Roles, Owners, Drained, ActiveOwned, Disposal, Ticks, Deadlines, Standbys, DistinctIds, TableOf;
    MoveKeeps(p, ReplacementSpawned(p, handle));
  }

  lemma SettleKeeps(p: Pool)
    requires Inv(p) && Serial(p)
    ensures Inv(Settle(p))
  {
    hide Roles, Owners, Drained, ActiveOwned, Disposal, Ticks, Deadlines, Standbys, DistinctIds, TableOf;
    MoveKeeps(p, Settle(p));
  }
}
