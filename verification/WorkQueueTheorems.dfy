/** Over every interleaving of enqueues and pass completions. */
module WorkQueueTheorems {
  import opened Wrappers
  import opened WorkQueueModel

  lemma EnqueueKeepsKeys<Key(!new), Value>(q: Queue<Key, Value>, key: Key, value: Value, k: Key)
    requires Paired(q) && KeyInv(HistoryOf(q, k), DrainOf(q, k))
    ensures KeyInv(HistoryOf(Enqueue(q, key, value), k), DrainOf(Enqueue(q, key, value), k))
  {
    hide KeyInv, PassesLatest, FreshWaiters;
    var r, h, d := Enqueue(q, key, value), HistoryOf(q, k), DrainOf(q, k);
    if k == key {
      if d.Some? {
        ArriveBusy(h, d.value, q.nextWaiter, value);
      } else {
        ArriveIdle(h, key, q.nextWaiter, value);
      }
    } else {
      assert HistoryOf(r, k) == h && DrainOf(r, k) == d;
    }
  }

  lemma EnqueueKeeps<Key(!new), Value>(q: Queue<Key, Value>, key: Key, value: Value)
    requires Inv(q)
    ensures Inv(Enqueue(q, key, value))
  {
    var r := Enqueue(q, key, value);
    assert Paired(r) && FreshWaiters(r) by { hide KeyInv, DrainOf; }
    hide Enqueue, KeyInv, Paired, FreshWaiters, HistoryOf, DrainOf;
    forall k ensures KeyInv(HistoryOf(r, k), DrainOf(r, k)) {
      assert KeyInv(HistoryOf(q, k), DrainOf(q, k));
      EnqueueKeepsKeys(q, key, value, k);
    }
  }

  lemma PassEndedKeepsKeys<Key(!new), Value>(q: Queue<Key, Value>, work: Work, ok: bool, k: Key)
    requires Paired(q) && work in q.drains && KeyInv(HistoryOf(q, k), DrainOf(q, k))
    ensures KeyInv(HistoryOf(PassEnded(q, work, ok), k), DrainOf(PassEnded(q, work, ok), k))
  {
    hide KeyInv, PassesLatest, FreshWaiters;
    var r, d, h := PassEnded(q, work, ok), q.drains[work], HistoryOf(q, k);
    if k == d.key {
      assert DrainOf(q, k) == Some(d);
      if d.trailing.Some? { EndTrailing(h, d, ok); } else { EndIdle(h, d, ok); }
    } else {
      assert HistoryOf(r, k) == h && DrainOf(r, k) == DrainOf(q, k);
    }
  }

  lemma PassEndedKeeps<Key(!new), Value>(q: Queue<Key, Value>, work: Work, ok: bool)
    requires Inv(q)
    ensures Inv(PassEnded(q, work, ok))
  {
    var r := PassEnded(q, work, ok);
    assert Paired(r) && FreshWaiters(r) by { hide KeyInv, DrainOf; }
    if work in q.drains {
      hide PassEnded, KeyInv, Paired, FreshWaiters, HistoryOf, DrainOf;
      forall k ensures KeyInv(HistoryOf(r, k), DrainOf(r, k)) {
        assert KeyInv(HistoryOf(q, k), DrainOf(q, k));
        PassEndedKeepsKeys(q, work, ok, k);
      }
    }
  }

  lemma StepKeeps<Key(!new), Value>(q: Queue<Key, Value>, e: Event<Key, Value>)
    requires Inv(q)
    ensures Inv(Next(q, e))
  {
    hide Inv, Enqueue, PassEnded;
    match e
    case EEnqueue(key, value) => EnqueueKeeps(q, key, value);
    case EPassEnded(work, ok) => PassEndedKeeps(q, work, ok);
  }

  lemma {:induction false} RunKeeps<Key(!new), Value>(q: Queue<Key, Value>, events: seq<Event<Key, Value>>)
    requires Inv(q)
    ensures Inv(After(q, events))
    decreases |events|
  {
    if events != [] {
      hide Inv, Next;
      StepKeeps(q, events[0]);
      RunKeeps(Next(q, events[0]), events[1..]);
    }
  }

  lemma EmptyInv<Key(!new), Value>()
    ensures Inv(Empty<Key, Value>())
  {
    forall key: Key ensures KeyInv(HistoryOf(Empty<Key, Value>(), key), DrainOf(Empty<Key, Value>(), key)) {
      assert Waiters<Value>([]) == [] == SettledWaiters([]);
    }
  }

  /** Passes of one key never overlap: two suspended drains have different keys. */
  lemma PassesNeverOverlap<Key(!new), Value>(events: seq<Event<Key, Value>>, a: Work, b: Work)
    requires var q := After(Empty<Key, Value>(), events);
      a in q.drains && b in q.drains && q.drains[a].key == q.drains[b].key
    ensures a == b
  {
    EmptyInv<Key, Value>();
    RunKeeps(Empty<Key, Value>(), events);
  }

  /** No waiter is lost, duplicated or reordered, and no waiter is settled twice: for every
      key, the enqueued waiters are the settled ones, then the batch of the running pass,
      then the trailing batch, each in order of arrival and all different. */
  lemma WaitersAccounted<Key(!new), Value>(events: seq<Event<Key, Value>>, key: Key)
    ensures var q := After(Empty<Key, Value>(), events);
      var h := HistoryOf(q, key);
      && Waiters(h.enqueued) == SettledWaiters(h.settled) + Owed(DrainOf(q, key))
      && (forall i, j | 0 <= i < j < |h.settled| :: h.settled[i].waiter != h.settled[j].waiter)
  {
    EmptyInv<Key, Value>();
    RunKeeps(Empty<Key, Value>(), events);
    var q := After(Empty<Key, Value>(), events);
    var h := HistoryOf(q, key);
    assert KeyInv(h, DrainOf(q, key));
    forall i, j | 0 <= i < j < |h.settled| ensures h.settled[i].waiter != h.settled[j].waiter {
      assert SettledByFirst(h, i) && SettledByFirst(h, j);
      assert h.enqueued[i].0 < h.enqueued[j].0;
    }
  }

  /** A waiter is settled by the first pass that starts after its enqueue, and that pass
      runs the value enqueued last before it started: its own or a later one. */
  lemma SettledFresh<Key(!new), Value>(events: seq<Event<Key, Value>>, key: Key, i: nat)
    requires i < |HistoryOf(After(Empty<Key, Value>(), events), key).settled|
    ensures var h := HistoryOf(After(Empty<Key, Value>(), events), key);
      i < |h.enqueued| && h.settled[i].waiter == h.enqueued[i].0 &&
      0 < h.settled[i].pass <= |h.passes| &&
      var pass := h.passes[h.settled[i].pass - 1];
      && i < pass.since <= |h.enqueued|
      && pass.value == h.enqueued[pass.since - 1].1
      && (forall p | 0 <= p < h.settled[i].pass - 1 :: h.passes[p].since <= i)
  {
    EmptyInv<Key, Value>();
    RunKeeps(Empty<Key, Value>(), events);
    hide After, KeyInv, HistoryOf, DrainOf, Inv;
    var q := After(Empty<Key, Value>(), events);
    InvAt(q, key);
    FirstPass(HistoryOf(q, key), DrainOf(q, key), i);
  }

  lemma InvAt<Key(!new), Value>(q: Queue<Key, Value>, key: Key)
    requires Inv(q)
    ensures KeyInv(HistoryOf(q, key), DrainOf(q, key))
  {
  }

  lemma FirstPass<Key, Value>(h: History<Value>, d: Option<Drain<Key, Value>>, i: nat)
    requires KeyInv(h, d) && i < |h.settled|
    ensures i < |h.enqueued| && h.settled[i].waiter == h.enqueued[i].0 && 0 < h.settled[i].pass <= |h.passes|
    ensures var pass := h.passes[h.settled[i].pass - 1];
      && i < pass.since <= |h.enqueued| && pass.value == h.enqueued[pass.since - 1].1
      && (forall p | 0 <= p < h.settled[i].pass - 1 :: h.passes[p].since <= i)
  {
    assert SettledByFirst(h, i);
    hide Waiters, SettledWaiters, DrainInv, Owed;
  }

  lemma IdleKey<Key, Value>(h: History<Value>, d: Option<Drain<Key, Value>>)
    requires KeyInv(h, d)
    ensures PassesLatest(h)
    ensures d.None? ==> |h.settled| == |h.enqueued|
    ensures d.None? && h.enqueued != [] ==> h.passes != [] && h.passes[|h.passes| - 1].since == |h.enqueued|
  {
    assert |Waiters(h.enqueued)| == |h.settled| + |Owed(d)|;
  }

  /** The values run for a key are a subsequence of the values enqueued, strictly in order;
      once the key is idle everybody is settled and the last value run is the last
      enqueued. */
  lemma LatestRuns<Key(!new), Value>(events: seq<Event<Key, Value>>, key: Key)
    ensures var q := After(Empty<Key, Value>(), events);
      var h := HistoryOf(q, key);
      && (forall p | 0 <= p < |h.passes| ::
            0 < h.passes[p].since <= |h.enqueued| && h.passes[p].value == h.enqueued[h.passes[p].since - 1].1)
      && (forall p, r | 0 <= p < r < |h.passes| :: h.passes[p].since < h.passes[r].since)
      && (key !in q.activeByKey ==> |h.settled| == |h.enqueued|)
      && (key !in q.activeByKey && h.enqueued != [] ==>
            h.passes != [] && h.passes[|h.passes| - 1].value == h.enqueued[|h.enqueued| - 1].1)
  {
    EmptyInv<Key, Value>();
    RunKeeps(Empty<Key, Value>(), events);
    hide After, KeyInv, HistoryOf, DrainOf, Inv;
    var q := After(Empty<Key, Value>(), events);
    InvAt(q, key);
    IdleKey(HistoryOf(q, key), DrainOf(q, key));
    InactiveIdle(q, key);
  }

  lemma InactiveIdle<Key, Value>(q: Queue<Key, Value>, key: Key)
    ensures key !in q.activeByKey ==> DrainOf(q, key).None?
  {
  }

  /** An active key always has a pass under way whose end makes progress: it settles at
      least one waiter. */
  lemma PassSettles<Key(!new), Value>(q: Queue<Key, Value>, key: Key, ok: bool)
    requires Inv(q) && key in q.activeByKey
    ensures var work, h := q.activeByKey[key], HistoryOf(q, key);
      && work in q.drains
      && |HistoryOf(PassEnded(q, work, ok), key).settled| > |h.settled|
  {
    assert KeyInv(HistoryOf(q, key), DrainOf(q, key));
  }

  // ------------------------------------------------------------- outcomes

  /** The event ends the pass of this key. */
  predicate Ends<Key(==), Value>(q: Queue<Key, Value>, e: Event<Key, Value>, key: Key) {
    e.EPassEnded? && e.work in q.drains && q.drains[e.work].key == key
  }

  /** How the passes of a key ended, one after another. */
  function Outcomes<Key(==), Value>(q: Queue<Key, Value>, events: seq<Event<Key, Value>>, key: Key): seq<bool>
    decreases |events|
  {
    if events == [] then []
    else (if Ends(q, events[0], key) then [events[0].ok] else []) + Outcomes(Next(q, events[0]), events[1..], key)
  }

  /** Every settlement carries the outcome of the pass it names, and all passes but the
      running one have ended. */
  ghost predicate Told<Value>(h: History<Value>, outcomes: seq<bool>, running: nat) {
    && |h.passes| == |outcomes| + running
    && forall i | 0 <= i < |h.settled| ::
         0 < h.settled[i].pass <= |outcomes| && h.settled[i].ok == outcomes[h.settled[i].pass - 1]
  }

  function Running<Key, Value>(q: Queue<Key, Value>, key: Key): nat {
    if DrainOf(q, key).Some? then 1 else 0
  }

  /** What one event does to the history of a key. */
  lemma HistoryStep<Key(!new), Value>(q: Queue<Key, Value>, e: Event<Key, Value>, key: Key)
    requires Paired(q)
    ensures var h, h', d := HistoryOf(q, key), HistoryOf(Next(q, e), key), DrainOf(q, key);
      if Ends(q, e, key) then
        && d.Some? && h'.settled == h.settled + Settled(d.value.batch.waiters, |h.passes|, e.ok)
        && |h'.passes| == |h.passes| + Running(Next(q, e), key)
      else h'.settled == h.settled && |h'.passes| + Running(q, key) == |h.passes| + Running(Next(q, e), key)
  {
    hide Settled;
  }

  lemma ToldGrows<Value>(h: History<Value>, h': History<Value>, waiters: seq<Waiter>, outcomes: seq<bool>, ok: bool, running: nat)
    requires Told(h, outcomes, 1) && h'.settled == h.settled + Settled(waiters, |h.passes|, ok)
    requires |h'.passes| == |h.passes| + running
    ensures Told(h', outcomes + [ok], running)
  {
  }

  /** The end of a pass appends exactly its batch, with its outcome; nothing else settles. */
  lemma ToldStep<Key(!new), Value>(q: Queue<Key, Value>, e: Event<Key, Value>, key: Key, outcomes: seq<bool>)
    requires Paired(q) && Told(HistoryOf(q, key), outcomes, Running(q, key))
    ensures Told(HistoryOf(Next(q, e), key), outcomes + (if Ends(q, e, key) then [e.ok] else []), Running(Next(q, e), key))
  {
    HistoryStep(q, e, key);
    var h, h' := HistoryOf(q, key), HistoryOf(Next(q, e), key);
    hide Next, Paired, HistoryOf, Settled, DrainOf, Ends;
    if Ends(q, e, key) {
      ToldGrows(h, h', DrainOf(q, key).value.batch.waiters, outcomes, e.ok, Running(Next(q, e), key));
    } else {
      assert outcomes + [] == outcomes;
    }
  }

  lemma {:induction false} RunTold<Key(!new), Value>(q: Queue<Key, Value>, events: seq<Event<Key, Value>>, key: Key,
                                                     outcomes: seq<bool>)
    requires Inv(q) && Told(HistoryOf(q, key), outcomes, Running(q, key))
    ensures var r := After(q, events);
      Told(HistoryOf(r, key), outcomes + Outcomes(q, events, key), Running(r, key))
    decreases |events|
  {
    if events == [] {
      assert outcomes + [] == outcomes;
    } else {
      var e, told := events[0], if Ends(q, events[0], key) then [events[0].ok] else [];
      OutcomesStep(q, events, key);
      hide *;
      ToldStep(q, e, key, outcomes);
      StepKeeps(q, e);
      RunTold(Next(q, e), events[1..], key, outcomes + told);
      Regrouped(outcomes, told, Outcomes(Next(q, e), events[1..], key));
    }
  }

  lemma Regrouped(a: seq<bool>, b: seq<bool>, c: seq<bool>)
    ensures (a + b) + c == a + (b + c)
  {
  }

  lemma OutcomesStep<Key(!new), Value>(q: Queue<Key, Value>, events: seq<Event<Key, Value>>, key: Key)
    requires events != []
    ensures After(q, events) == After(Next(q, events[0]), events[1..])
    ensures Outcomes(q, events, key) ==
      (if Ends(q, events[0], key) then [events[0].ok] else []) + Outcomes(Next(q, events[0]), events[1..], key)
    ensures Ends(q, events[0], key) ==> events[0].EPassEnded?
    ensures Inv(q) ==> Paired(q)
  {
    hide Next, KeyInv;
  }

  /** In every run and for every key: a waiter is resolved exactly when the pass it is settled
      by succeeded, and rejected exactly when that pass failed. */
  lemma SettledAsPassEnded<Key(!new), Value>(events: seq<Event<Key, Value>>, key: Key, i: nat)
    requires i < |HistoryOf(After(Empty<Key, Value>(), events), key).settled|
    ensures var settlement := HistoryOf(After(Empty<Key, Value>(), events), key).settled[i];
      var outcomes := Outcomes(Empty<Key, Value>(), events, key);
      0 < settlement.pass <= |outcomes| && settlement.ok == outcomes[settlement.pass - 1]
  {
    EmptyInv<Key, Value>();
    assert Told(HistoryOf(Empty<Key, Value>(), key), [], Running(Empty<Key, Value>(), key));
    hide After, Outcomes, Inv;
    RunTold(Empty<Key, Value>(), events, key, []);
    assert [] + Outcomes(Empty<Key, Value>(), events, key) == Outcomes(Empty<Key, Value>(), events, key);
  }

  /** The values enqueued for a key, in order. */
  function ValuesFor<Key(==), Value>(events: seq<Event<Key, Value>>, key: Key): seq<Value> {
    if events == [] then []
    else
      var last := events[|events| - 1];
      ValuesFor(events[..|events| - 1], key) + (if last.EEnqueue? && last.key == key then [last.value] else [])
  }

  ghost predicate Holds<Value>(enqueued: seq<(Waiter, Value)>, values: seq<Value>) {
    |enqueued| == |values| && forall i | 0 <= i < |values| :: enqueued[i].1 == values[i]
  }

  lemma EnqueuedStep<Key(!new), Value>(q: Queue<Key, Value>, e: Event<Key, Value>, key: Key, values: seq<Value>)
    requires Holds(HistoryOf(q, key).enqueued, values)
    ensures Holds(HistoryOf(Next(q, e), key).enqueued, values + (if e.EEnqueue? && e.key == key then [e.value] else []))
  {
    assert values + [] == values;
  }

  lemma {:induction false} AfterLast<Key(!new), Value>(q: Queue<Key, Value>, events: seq<Event<Key, Value>>)
    requires events != []
    ensures After(q, events) == Next(After(q, events[..|events| - 1]), events[|events| - 1])
    decreases |events|
  {
    hide Next;
    if |events| > 1 {
      AfterLast(Next(q, events[0]), events[1..]);
      assert events[1..][..|events| - 2] == events[..|events| - 1][1..];
    }
  }

  /** The history of a key begins with what was enqueued for it: every value, in order, under
      a waiter of its own. */
  lemma {:induction false} HistoryOfEvents<Key(!new), Value>(events: seq<Event<Key, Value>>, key: Key)
    ensures Holds(HistoryOf(After(Empty<Key, Value>(), events), key).enqueued, ValuesFor(events, key))
  {
    if events != [] {
      var init, last := events[..|events| - 1], events[|events| - 1];
      hide Next, Holds, HistoryOf;
      HistoryOfEvents(init, key);
      AfterLast(Empty<Key, Value>(), events);
      hide After;
      EnqueuedStep(After(Empty<Key, Value>(), init), last, key, ValuesFor(init, key));
    }
  }
}
