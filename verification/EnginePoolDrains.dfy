/** Every drain ends, and whoever waits for it is woken. */
module EnginePoolDrains {
  import opened Wrappers
  import opened EnginePoolFrames
  import opened EnginePoolModel
  import opened EnginePoolInvariants
  import opened EnginePoolLifecycle
  import opened EnginePoolTheorems

  // ------------------------------------------------------------ the deadline

  ghost predicate Drains(p: Pool, id: Id, deadline: int) {
    var t := TableOf(p.generations);
    id < p.nextId && Has(t, id, Draining) && t[id].drainDeadline == Some(deadline)
  }

  /** Retired: dead, or gone from the list for good. */
  ghost predicate Retired(p: Pool, id: Id) {
    var t := TableOf(p.generations);
    id < p.nextId && (id in t ==> t[id].status == Dead)
  }

  /** Retired, or draining with its sessions being aborted by a tick that then retires it. */
  ghost predicate Ending(p: Pool, id: Id) {
    Retired(p, id) || (id < p.nextId && Has(TableOf(p.generations), id, Draining) && id in p.aborts)
  }

  /** Events that start, resume or end no drain tick. */
  predicate NoTick(e: Event) {
    !e.ETickStarted? && !e.EPollReturned? && !e.EAbortsDone? && !Flips(e) && !e.EDisposeNext?
  }

  lemma TicksLeft(p: Pool, e: Event)
    requires NoTick(e)
    ensures Next(p, e).aborts == p.aborts && Next(p, e).polls == p.polls
  {
    if OfRun(e) {
      RunRolls(p, e);
      hide Next;
    } else {
      hide RouteRequest, ForwardEvent, Closed, Without, AddOwner, PrimaryId, Ids;
      match e
      case ERoute(path) => RouteTouchesOwners(p, path);
      case EForward(id, payload) => ForwardTouchesPins(p, id, payload);
      case EClosed(id) => ClosedKeepsTicks(p, id);
      case _ =>
    }
  }

  lemma ClosedKeepsTicks(p: Pool, id: Id)
    ensures Closed(p, id).aborts == p.aborts && Closed(p, id).polls == p.polls
    ensures Closed(p, id).closing.Keys <= p.closing.Keys
  {
    hide Without, Merge;
  }

  lemma PollKeepsAborts(p: Pool, id: Id, remaining: set<string>, now: int)
    ensures var q := PollReturned(p, id, remaining, now);
      && p.aborts <= q.aborts <= p.aborts + multiset{id}
      && q.polls == p.polls - multiset{id}
  {
    hide UpdateActiveSessions, RetireStarted, PastDeadline;
    if id in p.polls {
      var q := UpdateActiveSessions(p.(polls := p.polls - multiset{id}), id, remaining);
      UpdateTouches(p.(polls := p.polls - multiset{id}), id, remaining);
      RetireTouches(q, id, Idle);
    }
  }

  /** An abort that is under way ends only by retiring its engine. */
  lemma AbortsKept(p: Pool, e: Event, id: Id)
    requires id in p.aborts && e != EAbortsDone(id)
    ensures id in Next(p, e).aborts
  {
    if NoTick(e) {
      TicksLeft(p, e);
      hide Next;
    } else if e.EPollReturned? {
      PollKeepsAborts(p, e.id, e.remaining, e.now);
      hide PollReturned;
    } else if e.EAbortsDone? {
      OtherAborts(p, e.id, id);
      hide AbortsDone;
    } else {
      hide RetireStarted, Flipped, ReplacementRegistered, StatusOf;
      match e
      case EDisposeNext =>
        if p.disposal != [] { RetireTouches(p.(disposal := p.disposal[1..]), p.disposal[0], Shutdown); }
      case EFlipped(now) => FlippedTouches(p, now);
      case EReplacementRegistered => ReplacementTouches(p);
      case ETickStarted(g) =>
    }
  }

  lemma OtherAborts(p: Pool, done: Id, id: Id)
    requires id in p.aborts && id != done
    ensures id in AbortsDone(p, done).aborts
  {
    RetireTouches(p.(aborts := p.aborts - multiset{done}), done, Forced);
    hide RetireStarted;
  }

  lemma AbortsRetire(p: Pool, id: Id)
    requires Inv(p) && Ending(p, id) && id in p.aborts
    ensures Retired(AbortsDone(p, id), id)
  {
    TableFinds(p.generations, id);
    TableAssign(p.generations, id, Dead, None);
  }

  lemma EndingStays(p: Pool, e: Event, id: Id)
    requires Inv(p) && Serial(p) && Fresh(p, e) && Ending(p, id)
    ensures Ending(Next(p, e), id)
    ensures Retired(p, id) || e == EAbortsDone(id) ==> Retired(Next(p, e), id)
  {
    assert e == EAbortsDone(id) ==> Next(p, e) == AbortsDone(p, id);
    hide Next, Inv, Serial, Fresh, TableOf, Lives, AbortsDone;
    StepLives(p, e);
    if e == EAbortsDone(id) && id in p.aborts {
      AbortsRetire(p, id);
    } else {
      if id in p.aborts {
        AbortsKept(p, e, id);
      }
      LivesEnding(p, Next(p, e), id);
    }
  }

  lemma LivesEnding(p: Pool, q: Pool, id: Id)
    requires AllLive(p, q) && Ending(p, id) && (id in p.aborts ==> id in q.aborts)
    ensures Ending(q, id)
    ensures Retired(p, id) ==> Retired(q, id)
  {
    hide TableOf;
  }

  /** The poll that decides: nothing runs any more, or the deadline has passed. */
  lemma PollEnds(p: Pool, id: Id, remaining: set<string>, now: int, deadline: int)
    requires Inv(p) && Drains(p, id, deadline) && id in p.polls
    requires remaining == {} || deadline <= now
    ensures Ending(PollReturned(p, id, remaining, now), id)
  {
    TableFinds(p.generations, id);
    TableAssign(p.generations, id, Dead, None);
    hide Inv, UpdateActiveSessions;
    var q := p.(polls := p.polls - multiset{id});
    UpdateTouches(q, id, remaining);
  }

  /** A draining engine keeps its deadline until it is retired. */
  lemma DrainStep(p: Pool, e: Event, id: Id, deadline: int)
    requires Inv(p) && Serial(p) && Fresh(p, e) && Drains(p, id, deadline)
    ensures Drains(Next(p, e), id, deadline) || Retired(Next(p, e), id)
  {
    StepLives(p, e);
    hide Next, Inv, Serial, Fresh, TableOf;
  }

  /** The run completes a poll of `id` that finds nothing running, or that comes back at
      or after the deadline. */
  ghost predicate Decided(p: Pool, events: seq<Event>, id: Id, deadline: int)
    decreases |events|
  {
    events != [] && (
      (events[0].EPollReturned? && events[0].id == id && id in p.polls &&
         (events[0].remaining == {} || deadline <= events[0].now)) ||
      Decided(Next(p, events[0]), events[1..], id, deadline))
  }

  lemma {:induction false} RunEnding(p: Pool, events: seq<Event>, id: Id)
    requires Inv(p) && SerialRun(p, events) && Ending(p, id)
    ensures Ending(After(p, events), id)
    ensures Retired(p, id) || EAbortsDone(id) in events ==> Retired(After(p, events), id)
    decreases |events|
  {
    if events != [] {
      StepKeeps(p, events[0]);
      EndingStays(p, events[0], id);
      hide Inv, Serial, Fresh, Next, Ending, Retired;
      RunEnding(Next(p, events[0]), events[1..], id);
      assert EAbortsDone(id) in events ==> EAbortsDone(id) == events[0] || EAbortsDone(id) in events[1..];
    }
  }

  /** Whatever the sessions do, a draining engine is past the point of no return from the
      first completed poll at or after its deadline on, and retired once the aborts that
      poll started are done. */
  lemma {:induction false} DrainEnds(p: Pool, events: seq<Event>, id: Id, deadline: int)
    requires Inv(p) && SerialRun(p, events) && Drains(p, id, deadline)
    requires Decided(p, events, id, deadline)
    ensures Ending(After(p, events), id)
    decreases |events|
  {
    hide Inv, Serial, Fresh, PollReturned, Ending, Drains, Retired;
    var e, q := events[0], Next(p, events[0]);
    StepKeeps(p, e);
    if e.EPollReturned? && e.id == id && id in p.polls && (e.remaining == {} || deadline <= e.now) {
      PollEnds(p, id, e.remaining, e.now, deadline);
      RunEnding(q, events[1..], id);
    } else {
      hide Next;
      DrainStep(p, e, id, deadline);
      if Drains(q, id, deadline) {
        DrainEnds(q, events[1..], id, deadline);
      } else {
        RetiredEnding(q, id);
        RunEnding(q, events[1..], id);
      }
    }
  }

  lemma RetiredEnding(p: Pool, id: Id)
    requires Retired(p, id)
    ensures Ending(p, id)
  {
  }

  // ------------------------------------------------------------- the waiters

  /** A run that sleeps in waitForDrain has an engine whose retirement will wake it:
      one that still drains (and has a deadline), or one that is being closed. */
  lemma SleeperHasWaker(p: Pool)
    requires Inv(p) && p.inFlight.Some? && p.inFlight.value.AwaitingDrain? && !p.inFlight.value.resumed
    ensures exists id <- TableOf(p.generations) :: id in p.closing || exists deadline :: Drains(p, id, deadline)
  {
    var t := TableOf(p.generations);
    var id :| id in t && t[id].status in {Draining, Dead};
    assert t[id].status == Draining ==> Drains(p, id, t[id].drainDeadline.value);
  }

  /** The close of any retired engine wakes the sleeper; the drain it waited for is over
      unless another engine drains at that moment. */
  lemma CloseWakes(p: Pool, id: Id)
    requires Inv(p) && Serial(p) && p.inFlight.Some? && p.inFlight.value.AwaitingDrain? && id in p.closing
    ensures Closed(p, id).inFlight == Some(AwaitingDrain(p.inFlight.value.request, true))
    ensures Count(Closed(p, id).generations, Draining) == Count(p.generations, Draining)
  {
    var t, q := TableOf(p.generations), Closed(p, id);
    TableWithout(p.generations, id);
    CountTable(p.generations, Draining);
    assert Inv(q) by { ClosedKeeps(p, id); }
    CountTable(q.generations, Draining);
    if !NoneIs(t, Draining) {
      var d :| d in t && t[d].status == Draining;
      assert d in TableOf(q.generations);
    }
  }

  // -------------------------------------------------------- disjoint polls

  /** A tick of an engine starts, and a disposal retires it, only when no earlier tick of it
      is still under way. */
  predicate Disjoint(p: Pool, e: Event) {
    && (e.ETickStarted? ==> e.id !in p.polls && e.id !in p.aborts)
    && (e.EDisposeNext? && p.disposal != [] ==> p.disposal[0] !in p.polls && p.disposal[0] !in p.aborts)
  }

  /** The disposal retires this engine next. */
  predicate Disposes(p: Pool, e: Event, id: Id) {
    e.EDisposeNext? && p.disposal != [] && p.disposal[0] == id
  }

  /** Every tick under way belongs to an engine that drains, and is its only one. */
  ghost predicate OneTick(p: Pool) {
    forall id | id in p.polls || id in p.aborts ::
      Has(TableOf(p.generations), id, Draining) && p.polls[id] + p.aborts[id] == 1
  }

  lemma RetireGrows(p: Pool, id: Id, cause: Cause, other: Id)
    requires other in RetireStarted(p, id, cause).closing && other !in p.closing
    ensures other == id
  {
    hide StatusOf, Assign, DropOwner;
  }

  /** Only a poll, the end of an abort, or a disposal retires an engine. */
  lemma ClosingGrows(p: Pool, e: Event, id: Id)
    requires id in Next(p, e).closing && id !in p.closing
    ensures e == EAbortsDone(id) || (e.EPollReturned? && e.id == id && id in p.polls && e.remaining == {}) ||
            Disposes(p, e, id)
  {
    if OfRun(e) {
      RunRolls(p, e);
      hide Next;
    } else if e.EPollReturned? {
      PollClosing(p, e.id, e.remaining, e.now, id);
    } else {
      hide RetireStarted, Flipped, ReplacementRegistered, RouteRequest, ForwardEvent, Closed, StatusOf, Without,
           AddOwner, PrimaryId, Ids;
      match e
      case EAbortsDone(g) => RetireGrows(p.(aborts := p.aborts - multiset{g}), g, Forced, id);
      case EDisposeNext =>
        if p.disposal != [] { RetireGrows(p.(disposal := p.disposal[1..]), p.disposal[0], Shutdown, id); }
      case EClosed(g) => ClosedKeepsTicks(p, g);
      case EFlipped(now) => FlippedTouches(p, now);
      case EReplacementRegistered => ReplacementTouches(p);
      case ERoute(path) => RouteTouchesOwners(p, path);
      case EForward(g, payload) => ForwardTouchesPins(p, g, payload);
      case _ =>
    }
  }

  lemma PollClosing(p: Pool, g: Id, remaining: set<string>, now: int, id: Id)
    requires id in PollReturned(p, g, remaining, now).closing && id !in p.closing
    ensures g == id && id in p.polls && remaining == {}
  {
    hide RetireStarted, UpdateActiveSessions, PastDeadline;
    var q := p.(polls := p.polls - multiset{g});
    UpdateTouches(q, g, remaining);
    if remaining == {} { RetireGrows(UpdateActiveSessions(q, g, remaining), g, Idle, id); }
  }

  /** A draining engine goes on draining until its own tick (or a disposal) retires it. */
  lemma DrainingStays(p: Pool, e: Event, id: Id)
    requires Inv(p) && Serial(p) && Fresh(p, e) && Has(TableOf(p.generations), id, Draining)
    requires !Disposes(p, e, id) && e != EAbortsDone(id)
    requires !(e.EPollReturned? && e.id == id && id in p.polls && e.remaining == {})
    ensures Has(TableOf(Next(p, e).generations), id, Draining)
  {
    StepLives(p, e);
    assert id !in p.closing;
    if id in Next(p, e).closing { ClosingGrows(p, e, id); }
    hide Next, Inv, Serial, Fresh, TableOf;
  }

  /** A flip starts one tick, of the engine it demotes. */
  lemma FlipPolls(p: Pool, now: int)
    requires Inv(p)
    ensures Flipped(p, now).polls == p.polls ||
      exists id :: Has(TableOf(p.generations), id, Primary) && StatusOf(Flipped(p, now).generations, id) == Draining &&
                   Flipped(p, now).polls == p.polls + multiset{id}
  {
    if FlipReady(p) && p.inFlight.value.primary.Some? {
      var run := p.inFlight.value;
      assert Has(TableOf(p.generations), run.primary.value, Primary);
      hide Assign, StatusOf, PointedAt, AddOwner, Inv, StartDrainMonitor;
      MonitorTouches(Flip(p, run.standby, run.primary, run.sessions, run.requests), run.primary.value, now);
    }
  }

  lemma OneTickOthers(p: Pool, e: Event, g: Id)
    requires Inv(p) && Serial(p) && Fresh(p, e) && OneTick(p)
    requires e.EDisposeNext? && p.disposal != [] ==> p.disposal[0] == g
    requires e.EPollReturned? ==> e.id == g
    requires e.EAbortsDone? ==> e.id == g
    requires forall id | id != g :: Next(p, e).polls[id] == p.polls[id] && Next(p, e).aborts[id] == p.aborts[id]
    requires g in Next(p, e).polls || g in Next(p, e).aborts ==>
      Has(TableOf(Next(p, e).generations), g, Draining) && Next(p, e).polls[g] + Next(p, e).aborts[g] == 1
    ensures OneTick(Next(p, e))
  {
    hide Next, Inv, Serial, Fresh, TableOf, Has;
    var q := Next(p, e);
    forall id | id in q.polls || id in q.aborts
      ensures Has(TableOf(q.generations), id, Draining) && q.polls[id] + q.aborts[id] == 1
    {
      if id != g {
        DrainingStays(p, e, id);
      }
    }
  }

  lemma PolledOneTick(p: Pool, id: Id, remaining: set<string>, now: int)
    requires Inv(p) && Serial(p) && OneTick(p) && Fresh(p, EPollReturned(id, remaining, now))
    ensures OneTick(Next(p, EPollReturned(id, remaining, now)))
  {
    var e := EPollReturned(id, remaining, now);
    hide PollReturned, Inv, Serial, Fresh, TableOf, Has, OneTick;
    assert Next(p, e) == PollReturned(p, id, remaining, now);
    hide Next;
    PolledMoves(p, id, remaining, now);
    var q := PollReturned(p, id, remaining, now);
    if id in q.polls || id in q.aborts {
      DrainingStays(p, e, id);
    }
    OneTickOthers(p, e, id);
  }

  /** A poll moves its tick on; a tick that goes on had something left to poll for. */
  lemma PolledMoves(p: Pool, id: Id, remaining: set<string>, now: int)
    requires OneTick(p)
    ensures var q := PollReturned(p, id, remaining, now);
      && (forall other | other != id :: q.polls[other] == p.polls[other] && q.aborts[other] == p.aborts[other])
      && (id in q.polls || id in q.aborts ==>
            Has(TableOf(p.generations), id, Draining) && q.polls[id] + q.aborts[id] == 1 &&
            !(id in p.polls && remaining == {}))
  {
    PollKeepsAborts(p, id, remaining, now);
    hide PollReturned, TableOf, Has;
    if id !in p.polls {
      NoPoll(p, id, remaining, now);
    } else if remaining == {} {
      PollRetires(p, id, now);
    }
  }

  lemma NoPoll(p: Pool, id: Id, remaining: set<string>, now: int)
    requires id !in p.polls
    ensures PollReturned(p, id, remaining, now) == p
  {
  }

  lemma PollRetires(p: Pool, id: Id, now: int)
    requires id in p.polls
    ensures PollReturned(p, id, {}, now).aborts == p.aborts
  {
    hide StatusOf, Assign, UpdateActiveSessions;
    UpdateTouches(p.(polls := p.polls - multiset{id}), id, {});
  }

  lemma FlippedOneTick(p: Pool, now: int)
    requires Inv(p) && Serial(p) && OneTick(p)
    ensures OneTick(Next(p, EFlipped(now)))
  {
    var q := Flipped(p, now);
    assert Next(p, EFlipped(now)) == q;
    hide Flipped, Next;
    FlippedTouches(p, now);
    FlipPolls(p, now);
    if q.polls == p.polls {
      TicksKnown(p);
      hide Inv, Serial, OneTick;
      OneTickOthers(p, EFlipped(now), p.nextId);
    } else {
      var id :| Has(TableOf(p.generations), id, Primary) && StatusOf(q.generations, id) == Draining &&
                q.polls == p.polls + multiset{id};
      NewTick(p, q, now, id);
    }
  }

  lemma NewTick(p: Pool, q: Pool, now: int, id: Id)
    requires Inv(p) && Serial(p) && OneTick(p) && q == Next(p, EFlipped(now))
    requires Has(TableOf(p.generations), id, Primary) && StatusOf(q.generations, id) == Draining
    requires q.polls == p.polls + multiset{id} && q.aborts == p.aborts
    ensures OneTick(q)
  {
    NotPolled(p);
    StatusFound(q.generations, id);
    hide Next, Inv, Serial, OneTick, StatusOf;
    OneTickOthers(p, EFlipped(now), id);
  }

  lemma NotPolled(p: Pool)
    requires OneTick(p)
    ensures forall id | Has(TableOf(p.generations), id, Primary) :: id !in p.polls && id !in p.aborts
  {
  }

  lemma StatusFound(gens: seq<Generation>, id: Id)
    requires StatusOf(gens, id) != Dead
    ensures Has(TableOf(gens), id, StatusOf(gens, id))
  {
    TableFinds(gens, id);
  }

  lemma TicksKnown(p: Pool)
    requires Inv(p)
    ensures p.nextId !in p.polls && p.nextId !in p.aborts
  {
  }

  lemma QuietOneTick(p: Pool, e: Event)
    requires Inv(p) && Serial(p) && Fresh(p, e) && OneTick(p) && !e.EDisposeNext?
    requires Next(p, e).polls == p.polls && Next(p, e).aborts == p.aborts
    requires !e.EPollReturned? && !e.EAbortsDone?
    ensures OneTick(Next(p, e))
  {
    TicksKnown(p);
    hide Next, Inv, Serial, Fresh;
    OneTickOthers(p, e, p.nextId);
  }

  lemma AbortedOneTick(p: Pool, id: Id)
    requires Inv(p) && Serial(p) && OneTick(p)
    ensures OneTick(Next(p, EAbortsDone(id)))
  {
    hide Inv, Serial, RetireStarted;
    if id in p.aborts {
      RetireTouches(p.(aborts := p.aborts - multiset{id}), id, Forced);
      assert AbortsDone(p, id).polls == p.polls && AbortsDone(p, id).aborts == p.aborts - multiset{id};
      hide AbortsDone;
      OneTickOthers(p, EAbortsDone(id), id);
    }
  }

  lemma StartedOneTick(p: Pool, id: Id)
    requires Inv(p) && Serial(p) && OneTick(p) && Disjoint(p, ETickStarted(id))
    ensures OneTick(Next(p, ETickStarted(id)))
  {
    hide Inv, Serial;
    TableFinds(p.generations, id);
    if StatusOf(p.generations, id) == Draining {
      OneTickOthers(p, ETickStarted(id), id);
    }
  }

  lemma DisposedOneTick(p: Pool)
    requires Inv(p) && Serial(p) && OneTick(p) && Disjoint(p, EDisposeNext)
    ensures OneTick(Next(p, EDisposeNext))
  {
    hide Inv, Serial, RetireStarted;
    if p.disposal != [] {
      RetireTouches(p.(disposal := p.disposal[1..]), p.disposal[0], Shutdown);
      assert DisposeNext(p).polls == p.polls && DisposeNext(p).aborts == p.aborts;
      hide DisposeNext;
      OneTickOthers(p, EDisposeNext, p.disposal[0]);
    }
  }

  lemma OneTickFresh(p: Pool, e: Event)
    requires OneTick(p)
    ensures Fresh(p, e)
  {
    if e.EPollReturned? { TableFinds(p.generations, e.id); }
  }

  lemma ReplacementOneTick(p: Pool)
    requires Inv(p) && Serial(p) && OneTick(p)
    ensures OneTick(Next(p, EReplacementRegistered))
  {
    ReplacementTicks(p);
    hide ReplacementRegistered;
    QuietOneTick(p, EReplacementRegistered);
  }

  /** Ticks that do not overlap are fresh and stay so. */
  lemma OneTickStep(p: Pool, e: Event)
    requires Inv(p) && Serial(p) && OneTick(p) && Disjoint(p, e)
    ensures Fresh(p, e) && OneTick(Next(p, e))
  {
    hide Next, Inv, Serial, OneTick, Fresh, Disjoint;
    OneTickFresh(p, e);
    if NoTick(e) {
      TicksLeft(p, e);
      QuietOneTick(p, e);
    } else {
      match e
      case EPollReturned(id, remaining, now) => PolledOneTick(p, id, remaining, now);
      case EFlipped(now) => FlippedOneTick(p, now);
      case EAbortsDone(id) => AbortedOneTick(p, id);
      case ETickStarted(id) => StartedOneTick(p, id);
      case EReplacementRegistered => ReplacementOneTick(p);
      case EDisposeNext => DisposedOneTick(p);
    }
  }

  lemma ReplacementTicks(p: Pool)
    ensures ReplacementRegistered(p).polls == p.polls && ReplacementRegistered(p).aborts == p.aborts
  {
    hide Assign, PointedAt;
  }

  /** No rollover overlaps a recovery or a disposal, and ticks overlap neither each other nor
      the retirements of a disposal. */
  ghost predicate DisjointRun(p: Pool, events: seq<Event>)
    decreases |events|
  {
    && Serial(p)
    && (events == [] || (Disjoint(p, events[0]) && DisjointRun(Next(p, events[0]), events[1..])))
  }

  /** When the drain ticks of an engine overlap neither each other nor its retirement by a
      disposal, no poll comes back after its engine was retired: the hypothesis of the safety
      theorems holds. */
  lemma {:induction false} DisjointTicksAreFresh(p: Pool, events: seq<Event>)
    requires Inv(p) && OneTick(p) && DisjointRun(p, events)
    ensures SerialRun(p, events)
    decreases |events|
  {
    if events != [] {
      OneTickStep(p, events[0]);
      StepKeeps(p, events[0]);
      hide Inv, Serial, Fresh, Next, OneTick, Disjoint;
      DisjointTicksAreFresh(Next(p, events[0]), events[1..]);
    }
  }

  // -------------------------------------------------------- running sessions

  /** The only events that touch the recorded activity. */
  predicate OfActivity(e: Event) {
    e.EFlipped? || e.EPollReturned? || e.EAbortsDone? || e.EDisposeNext?
  }

  lemma ActivityLeft(p: Pool, e: Event)
    requires !OfActivity(e)
    ensures Next(p, e).activeSessions == p.activeSessions
  {
    if OfRun(e) {
      RunRolls(p, e);
      hide Next;
    } else {
      hide RouteRequest, ForwardEvent, Closed, Flip, Without, AddOwner, PrimaryId, Ids;
      match e
      case ERoute(path) => RouteTouchesOwners(p, path);
      case EForward(id, payload) => ForwardTouchesPins(p, id, payload);
      case EClosed(id) => ClosedKeepsActivity(p, id);
      case EReplacementRegistered => ReplacementTouches(p);
      case _ =>
    }
  }

  lemma ClosedKeepsActivity(p: Pool, id: Id)
    ensures Closed(p, id).activeSessions == p.activeSessions
  {
    hide Without, Merge;
  }

  lemma RetireActivity(p: Pool, id: Id, cause: Cause)
    ensures var q := RetireStarted(p, id, cause);
      q.activeSessions == p.activeSessions || q.activeSessions == p.activeSessions - {id}
    ensures StatusOf(p.generations, id) != Dead ==> StatusOf(RetireStarted(p, id, cause).generations, id) == Dead
  {
    if StatusOf(p.generations, id) != Dead {
      TableFinds(p.generations, id);
      TableAssign(p.generations, id, Dead, None);
      TableFinds(Assign(p.generations, id, Dead, None), id);
    }
    hide TableOf, Assign, FindId;
  }

  /** Retiring an engine takes its own activity away and no other's. */
  lemma RetireActive(p: Pool, retired: Id, cause: Cause, id: Id, session: string)
    requires Active(p, id, session)
    ensures var q := RetireStarted(p, retired, cause);
      Active(q, id, session) || StatusOf(q.generations, id) == Dead
  {
    RetireActivity(p, retired, cause);
    if StatusOf(p.generations, retired) == Dead {
      assert RetireStarted(p, retired, cause) == p;
    }
    hide StatusOf, Assign, DropOwner;
  }

  /** A session recorded running stays on record until a poll of its engine no longer
      reports it, or its engine is retired. */
  lemma ActiveStep(p: Pool, e: Event, id: Id, session: string)
    requires Inv(p) && Active(p, id, session)
    requires e.EPollReturned? && e.id == id ==> session in e.remaining
    ensures Active(Next(p, e), id, session) || StatusOf(Next(p, e).generations, id) == Dead
  {
    NoFlipWhileActive(p, id, session);
    hide Inv, FlipReady, Active, StatusOf;
    if OfActivity(e) { LoudActive(p, e, id, session); } else { QuietActive(p, e, id, session); }
  }

  lemma QuietActive(p: Pool, e: Event, id: Id, session: string)
    requires Active(p, id, session) && !OfActivity(e)
    ensures Active(Next(p, e), id, session)
  {
    ActivityLeft(p, e);
    hide Next;
  }

  lemma LoudActive(p: Pool, e: Event, id: Id, session: string)
    requires Active(p, id, session) && OfActivity(e) && !FlipReady(p)
    requires e.EPollReturned? && e.id == id ==> session in e.remaining
    ensures Active(Next(p, e), id, session) || StatusOf(Next(p, e).generations, id) == Dead
  {
    hide PollReturned, AbortsDone, DisposeNext, Flipped, Active, FlipReady, StatusOf;
    match e
    case EFlipped(now) => FlipIdle(p, now);
    case EPollReturned(polled, remaining, now) => PollActive(p, polled, remaining, now, id, session);
    case EAbortsDone(g) => AbortActive(p, g, id, session);
    case EDisposeNext => DisposeActive(p, id, session);
  }

  lemma AbortActive(p: Pool, g: Id, id: Id, session: string)
    requires Active(p, id, session)
    ensures Active(AbortsDone(p, g), id, session) || StatusOf(AbortsDone(p, g).generations, id) == Dead
  {
    hide RetireStarted, StatusOf;
    if g in p.aborts { RetireActive(p.(aborts := p.aborts - multiset{g}), g, Forced, id, session); }
  }

  lemma DisposeActive(p: Pool, id: Id, session: string)
    requires Active(p, id, session)
    ensures Active(DisposeNext(p), id, session) || StatusOf(DisposeNext(p).generations, id) == Dead
  {
    hide RetireStarted, StatusOf;
    if p.disposal != [] { RetireActive(p.(disposal := p.disposal[1..]), p.disposal[0], Shutdown, id, session); }
  }

  lemma NoFlipWhileActive(p: Pool, id: Id, session: string)
    requires Inv(p) && Active(p, id, session)
    ensures !FlipReady(p)
  {
    hide TableOf, DistinctIds;
  }

  lemma PollActive(p: Pool, polled: Id, remaining: set<string>, now: int, id: Id, session: string)
    requires Active(p, id, session) && (polled == id ==> session in remaining)
    ensures var q := PollReturned(p, polled, remaining, now);
      Active(q, id, session) || StatusOf(q.generations, id) == Dead
  {
    hide RetireStarted, StatusOf, PastDeadline;
    if polled in p.polls {
      var q := UpdateActiveSessions(p.(polls := p.polls - multiset{polled}), polled, remaining);
      assert Active(q, id, session);
      hide UpdateActiveSessions;
      if remaining == {} { RetireActive(q, polled, Idle, id, session); }
    }
  }

  /** In every run, as long as every poll of its engine reports the session, its record lasts
      exactly as long as the engine drains. */
  lemma {:induction false} ActiveWhileReported(p: Pool, events: seq<Event>, id: Id, session: string)
    requires Inv(p) && SerialRun(p, events) && Active(p, id, session)
    requires forall e <- events :: e.EPollReturned? && e.id == id ==> session in e.remaining
    ensures Active(After(p, events), id, session) <==> StatusOf(After(p, events).generations, id) == Draining
    decreases |events|
  {
    ActiveDrains(p, id, session);
    if events != [] {
      var e, q := events[0], Next(p, events[0]);
      StepKeeps(p, e);
      ActiveStep(p, e, id, session);
      assert forall e <- events[1..] :: e in events;
      StepRetires(p, e, id);
      hide Inv, Serial, Fresh, Next, Active, StatusOf, Retired;
      if Active(q, id, session) {
        ActiveWhileReported(q, events[1..], id, session);
      } else {
        RunRetired(q, events[1..], id, session);
      }
    }
  }

  lemma ActiveDrains(p: Pool, id: Id, session: string)
    requires Inv(p) && Active(p, id, session)
    ensures StatusOf(p.generations, id) == Draining && id < p.nextId
  {
    TableFinds(p.generations, id);
  }

  lemma StepRetires(p: Pool, e: Event, id: Id)
    requires Inv(p) && Serial(p) && Fresh(p, e) && id < p.nextId
    ensures StatusOf(Next(p, e).generations, id) == Dead ==> Retired(Next(p, e), id)
  {
    TableFinds(Next(p, e).generations, id);
    StepLives(p, e);
    hide Next, Inv, Serial, Fresh, TableOf, Lives;
  }

  lemma RunRetired(p: Pool, events: seq<Event>, id: Id, session: string)
    requires Inv(p) && SerialRun(p, events) && Retired(p, id)
    ensures StatusOf(After(p, events).generations, id) == Dead && !Active(After(p, events), id, session)
  {
    RetiredEnding(p, id);
    RunEnding(p, events, id);
    RunKeeps(p, events);
    var q := After(p, events);
    TableFinds(q.generations, id);
    if Active(q, id, session) { ActiveDrains(q, id, session); }
  }

  /** ... and so long all its requests go to that engine. */
  lemma ReportedSessionRoutes(p: Pool, events: seq<Event>, id: Id, session: string, path: Path)
    requires Inv(p) && SerialRun(p, events) && Active(p, id, session)
    requires forall e <- events :: e.EPollReturned? && e.id == id ==> session in e.remaining
    requires StatusOf(After(p, events).generations, id) == Draining && Count(After(p, events).generations, Primary) == 1
    requires path.session == Some(session)
    ensures var q := After(p, events);
      RouteRequest(q, path) == (q, Some(Route(FindId(q.generations, id).value, None)))
  {
    ActiveWhileReported(p, events, id, session);
    RunKeeps(p, events);
    hide After, StatusOf, Active, RouteRequest, Inv, Serial, SerialRun, Count;
    RunningSessionStays(After(p, events), path, session, id);
  }
}
