/** Runs asleep in waitForDrain: when they are woken, and what they then find. */
module EnginePoolWakes {
  import opened Wrappers
  import opened EnginePoolFrames
  import opened EnginePoolModel
  import opened EnginePoolInvariants
  import opened EnginePoolLifecycle
  import opened EnginePoolTheorems
  import opened EnginePoolDrains
  import opened EnginePoolOverlaps

  // ------------------------------------------------------- who still drains

  /** The listed engine a flip demotes. */
  ghost predicate Demotes(p: Pool, e: Event, id: Id) {
    e.EFlipped? && FlipReady(p) && p.inFlight.value.primary == Some(id) && id in TableOf(p.generations)
  }

  /** Events that retire an engine that drains, or empty the list. */
  predicate Retires(p: Pool, e: Event, id: Id) {
    match e
    case EPollReturned(polled, remaining, _) => polled == id && id in p.polls && remaining == {}
    case EAbortsDone(aborted) => aborted == id && id in p.aborts
    case EDisposeNext => p.disposal != [] && p.disposal[0] == id
    case EDisposeEnded => p.disposed && p.disposal == []
    case EClosed(closed) => closed == id && id in p.closing
    case EOldClosed(ok) => ok && p.recovery.Some? && p.recovery.value.ClosingOld? && p.recovery.value.previous == id
    case _ => false
  }

  lemma DrainingStep(p: Pool, e: Event, id: Id)
    requires Steady(p)
    ensures Has(TableAfter(p, e), id, Draining) <==>
            Demotes(p, e, id) || (Has(TableOf(p.generations), id, Draining) && !Retires(p, e, id))
  {
    hide TableOf, DistinctIds;
  }

  /** The engine drains at the end, given whether it drains at the start: it was demoted, or
      drained already, and no event since retired it. */
  ghost predicate StillDrains(p: Pool, events: seq<Event>, id: Id, drains: bool)
    decreases |events|
  {
    if events == [] then drains
    else
      StillDrains(Next(p, events[0]), events[1..], id,
                  Demotes(p, events[0], id) || (drains && !Retires(p, events[0], id)))
  }

  /** Demoted during the run, and not retired since. */
  ghost predicate DemotedSince(p: Pool, events: seq<Event>, id: Id) {
    StillDrains(p, events, id, false)
  }

  lemma {:induction false} RunDraining(p: Pool, events: seq<Event>, id: Id, drains: bool)
    requires Steady(p) && (Has(TableOf(p.generations), id, Draining) <==> drains)
    ensures Has(TableOf(After(p, events).generations), id, Draining) <==> StillDrains(p, events, id, drains)
    decreases |events|
  {
    if events != [] {
      var e := events[0];
      StepSteady(p, e);
      StepBecomes(p, e);
      DrainingStep(p, e, id);
      hide Steady, Next, TableOf, TableAfter, Demotes, Retires, Has;
      RunDraining(Next(p, e), events[1..], id, Demotes(p, e, id) || (drains && !Retires(p, e, id)));
    }
  }

  ghost predicate NobodyDrains(t: Table) {
    forall id :: !Has(t, id, Draining)
  }

  lemma DrainingListed(p: Pool)
    requires Steady(p)
    ensures Find(p.generations, Draining).None? <==> NobodyDrains(TableOf(p.generations))
  {
    DrainingFound(p.generations);
    FoundInTable(p.generations, Draining);
    hide Find, TableOf, DistinctIds;
    if Find(p.generations, Draining).Some? {
      assert Has(TableOf(p.generations), Find(p.generations, Draining).value.id, Draining);
    }
  }

  /** A draining engine is retired: nobody drains then. */
  lemma RetiredAlone(p: Pool, e: Event, k: Id)
    requires Steady(p) && Has(TableOf(p.generations), k, Draining) && Retires(p, e, k)
    ensures forall id :: !Has(TableOf(Next(p, e).generations), id, Draining)
  {
    StepBecomes(p, e);
    hide Next, TableOf, TableAfter, DistinctIds;
    forall id ensures !Has(TableOf(Next(p, e).generations), id, Draining) {
      DrainingStep(p, e, id);
    }
  }

  /** A close takes its own engine from the list and no other. */
  lemma CloseKeepsDraining(p: Pool, k: Id, id: Id)
    requires Steady(p) && k in p.closing
    ensures Has(TableOf(Closed(p, k).generations), id, Draining) <==>
            id != k && Has(TableOf(p.generations), id, Draining)
  {
    StepBecomes(p, EClosed(k));
    DrainingStep(p, EClosed(k), id);
    assert Next(p, EClosed(k)) == Closed(p, k);
    hide Next, Closed, TableOf, DistinctIds, Sound;
  }

  /** In every run, whatever overlaps: a draining engine is retired, other events follow, and
      then its close comes back and wakes a run that waits for a drain. That run finds no
      engine draining exactly when every other engine demoted while the close was pending
      has been retired since. */
  lemma WokenFindsDrain(p: Pool, e: Event, k: Id, events: seq<Event>)
    requires Steady(p) && Has(TableOf(p.generations), k, Draining) && Retires(p, e, k)
    requires var q := After(Next(p, e), events);
      q.inFlight.Some? && q.inFlight.value.AwaitingDrain? && k in q.closing
    ensures var q := After(Next(p, e), events);
      && Closed(q, k).inFlight == Some(AwaitingDrain(q.inFlight.value.request, true))
      && (Find(Closed(q, k).generations, Draining).None? <==>
            forall id | id != k :: !DemotedSince(Next(p, e), events, id))
  {
    StepSteady(p, e);
    RetiredAlone(p, e, k);
    var p1 := Next(p, e);
    var q := After(p1, events);
    hide Next, Steady, Retires, TableOf, After, StillDrains, Find, Has, NobodyDrains;
    RunSteady(p1, events);
    CloseWakesRun(q, k);
    StepSteady(q, EClosed(k));
    assert Closed(q, k) == Next(q, EClosed(k)) by { NextClosed(q, k); }
    hide Closed;
    DrainingListed(Closed(q, k));
    var gens := Closed(q, k).generations;
    forall id ensures Has(TableOf(gens), id, Draining) <==> id != k && DemotedSince(p1, events, id) {
      RunDraining(p1, events, id, false);
      CloseKeepsDraining(q, k, id);
    }
    NobodyAlike(TableOf(gens), p1, events, k);
  }

  lemma NobodyAlike(t: Table, p: Pool, events: seq<Event>, k: Id)
    requires forall id :: Has(t, id, Draining) <==> id != k && DemotedSince(p, events, id)
    ensures NobodyDrains(t) <==> forall id | id != k :: !DemotedSince(p, events, id)
  {
    hide DemotedSince, Has;
    if id :| Has(t, id, Draining) { assert DemotedSince(p, events, id); }
  }

  lemma NextClosed(p: Pool, k: Id)
    ensures Next(p, EClosed(k)) == Closed(p, k)
  {
    hide Closed;
  }

  lemma CloseWakesRun(p: Pool, k: Id)
    requires p.inFlight.Some? && p.inFlight.value.AwaitingDrain? && k in p.closing
    ensures Closed(p, k).inFlight == Some(AwaitingDrain(p.inFlight.value.request, true))
  {
    hide Without, Merge;
  }

  // -------------------------------------------------------------- sleepers

  predicate Asleep(p: Pool) {
    p.inFlight.Some? && p.inFlight.value.AwaitingDrain? && !p.inFlight.value.resumed
  }

  /** The run sleeps in every state. */
  ghost predicate SleepsThrough(p: Pool, events: seq<Event>)
    decreases |events|
  {
    Asleep(p) && (events != [] ==> SleepsThrough(Next(p, events[0]), events[1..]))
  }

  lemma CloseResumes(p: Pool, id: Id)
    requires Asleep(p) && id in p.closing
    ensures !Asleep(Next(p, EClosed(id)))
  {
    CloseWakesRun(p, id);
    hide Closed;
  }

  /** While a run sleeps, an engine that drains or is retired stays in the list. */
  lemma SleeperKeeps(p: Pool, e: Event, id: Id)
    requires Inv(p) && Serial(p) && Asleep(p) && Asleep(Next(p, e))
    requires id in TableOf(p.generations)
    requires TableOf(p.generations)[id].status in {Draining, Dead}
    ensures id in TableAfter(p, e) && TableAfter(p, e)[id].status in {Draining, Dead}
    ensures TableOf(p.generations)[id].status == Dead ==> TableAfter(p, e)[id].status == Dead
  {
    assert e.EClosed? && e.id in p.closing ==> false by { if e.EClosed? && e.id in p.closing { CloseResumes(p, e.id); } }
    hide TableOf, Next, Holds, DistinctIds;
  }

  lemma {:induction false} SleepersKeep(p: Pool, events: seq<Event>, id: Id)
    requires Inv(p) && SerialRun(p, events) && SleepsThrough(p, events)
    requires id in TableOf(p.generations) && TableOf(p.generations)[id].status in {Draining, Dead}
    ensures id in TableOf(After(p, events).generations)
    decreases |events|
  {
    if events != [] {
      var e := events[0];
      StepKeeps(p, e);
      InvSteady(p);
      StepBecomes(p, e);
      assert Asleep(Next(p, e));
      SleeperKeeps(p, e, id);
      hide Next, Inv, Serial, Fresh, TableOf, TableAfter, Steady, Asleep;
      SleepersKeep(Next(p, e), events[1..], id);
    }
  }

  lemma InvSteady(p: Pool)
    requires Inv(p)
    ensures Numbered(p)
  {
  }

  /** A retired engine cannot be closed while a run sleeps through. */
  lemma {:induction false} NoCloseAsleep(p: Pool, events: seq<Event>, id: Id)
    requires Inv(p) && SerialRun(p, events) && SleepsThrough(p, events)
    requires Has(TableOf(p.generations), id, Dead)
    ensures EClosed(id) !in events
    decreases |events|
  {
    if events != [] {
      var e := events[0];
      StepKeeps(p, e);
      InvSteady(p);
      StepBecomes(p, e);
      assert Asleep(Next(p, e));
      SleeperKeeps(p, e, id);
      assert id in p.closing by { DeadCloses(p, id); }
      if e == EClosed(id) { CloseResumes(p, id); }
      hide Next, Inv, Serial, Fresh, TableOf, TableAfter, Asleep;
      NoCloseAsleep(Next(p, e), events[1..], id);
    }
  }

  lemma DeadCloses(p: Pool, id: Id)
    requires Inv(p) && Has(TableOf(p.generations), id, Dead)
    ensures id in p.closing
  {
  }

  lemma {:induction false} RunSplits(p: Pool, a: seq<Event>, b: seq<Event>)
    ensures After(p, a + b) == After(After(p, a), b)
    ensures SerialRun(p, a + b) ==> SerialRun(p, a) && SerialRun(After(p, a), b)
    ensures SleepsThrough(p, a + b) ==> SleepsThrough(p, a) && SleepsThrough(After(p, a), b)
    decreases |a|
  {
    if a == [] {
      assert a + b == b;
    } else {
      assert (a + b)[0] == a[0] && (a + b)[1..] == a[1..] + b;
      hide Serial, Fresh, Asleep, Next;
      RunSplits(Next(p, a[0]), a[1..], b);
    }
  }

  /** Whoever waits for a drain is resumed: in every run from a reachable state in which a run
      sleeps and an engine drains, once that engine's deciding poll has come back, the aborts
      it started are done and its close has come back, the run has been resumed. */
  lemma SleeperResumes(p: Pool, decides: seq<Event>, aborts: seq<Event>, closes: seq<Event>, id: Id, deadline: int)
    requires Inv(p) && SerialRun(p, decides + aborts + closes) && Drains(p, id, deadline)
    requires Decided(p, decides, id, deadline)
    requires id in After(p, decides).aborts ==> EAbortsDone(id) in aborts
    requires EClosed(id) in closes
    ensures !SleepsThrough(p, decides + aborts + closes)
  {
    RunSplits(p, decides + aborts, closes);
    RunSplits(p, decides, aborts);
    var q := After(p, decides);
    var r := After(q, aborts);
    DrainEnds(p, decides, id, deadline);
    RunKeeps(p, decides);
    RunEnding(q, aborts, id);
    RunKeeps(q, aborts);
    if SleepsThrough(p, decides + aborts + closes) {
      SleepersKeep(p, decides + aborts, id);
      assert Has(TableOf(r.generations), id, Dead);
      NoCloseAsleep(r, closes, id);
      assert false;
    }
  }

  /** While a run sleeps nothing is demoted. */
  lemma {:induction false} SleepDemotesNothing(p: Pool, events: seq<Event>, id: Id)
    requires Steady(p) && SleepsThrough(p, events) && Has(TableOf(After(p, events).generations), id, Draining)
    ensures Has(TableOf(p.generations), id, Draining)
    decreases |events|
  {
    if events != [] {
      var e := events[0];
      StepSteady(p, e);
      StepBecomes(p, e);
      assert !Demotes(p, e, id);
      hide Next, Steady, TableOf, TableAfter, Has, Demotes, Asleep;
      SleepDemotesNothing(Next(p, e), events[1..], id);
      DrainingStep(p, e, id);
    }
  }

  /** A run that sleeps until the engine it waits for is closed is resumed with no engine
      draining. */
  lemma SleeperWakesClean(p: Pool, events: seq<Event>, id: Id)
    requires Inv(p) && SerialRun(p, events) && SleepsThrough(p, events) && Steady(p)
    requires Has(TableOf(p.generations), id, Draining) && id in After(p, events).closing
    ensures var q := Closed(After(p, events), id);
      && q.inFlight.Some? && q.inFlight.value.AwaitingDrain? && q.inFlight.value.resumed
      && Find(q.generations, Draining).None?
  {
    var q := After(p, events);
    RunKeeps(p, events);
    RunSteady(p, events);
    SleepsAtEnd(p, events);
    StepSteady(q, EClosed(id));
    hide After, Next, Steady, Find, TableOf, SleepsThrough;
    CloseWakesRun(q, id);
    NextClosed(q, id);
    hide Closed;
    DrainingListed(Closed(q, id));
    forall d ensures !Has(TableOf(Closed(q, id).generations), d, Draining) {
      CloseKeepsDraining(q, id, d);
      if Has(TableOf(q.generations), d, Draining) {
        SleepDemotesNothing(p, events, d);
        OneDrains(p, id, d);
      }
    }
  }

  lemma {:induction false} SleepsAtEnd(p: Pool, events: seq<Event>)
    requires SleepsThrough(p, events)
    ensures Asleep(After(p, events))
    decreases |events|
  {
    if events != [] {
      hide Next, Asleep;
      SleepsAtEnd(Next(p, events[0]), events[1..]);
    }
  }

  lemma OneDrains(p: Pool, a: Id, b: Id)
    requires Steady(p) && Has(TableOf(p.generations), a, Draining) && Has(TableOf(p.generations), b, Draining)
    ensures a == b
  {
    hide TableOf, DistinctIds;
  }
}
