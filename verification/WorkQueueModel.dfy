/** LatestTrailingWorkQueue (apps/server/src/latest-trailing-work-queue.ts): work per key
    never overlaps, and arrivals during a pass coalesce into one trailing pass that runs
    the latest value. */
module WorkQueueModel {
  import opened Wrappers

  /** The resolve/reject pair of one promise handed out by `enqueue`. */
  type Waiter = nat

  /** A reference to an ActiveWork object. */
  type Work = nat

  datatype Batch<Value> = Batch(value: Value, waiters: seq<Waiter>)

  /** A drain call suspended on its pass: its key, the batch in its local variable, and
      the trailing slot of its ActiveWork object. */
  datatype Drain<Key, Value> = Drain(key: Key, batch: Batch<Value>, trailing: Option<Batch<Value>>)

  /** One call of `run`: its value, and how many enqueues of the key came before it. */
  datatype Pass<Value> = Pass(value: Value, since: nat)

  /** One call of a waiter's resolve or reject, and the pass that caused it. */
  datatype Settlement = Settlement(waiter: Waiter, pass: nat, ok: bool)

  /** What happened to one key, in order. */
  datatype History<Value> = History(
    enqueued: seq<(Waiter, Value)>, passes: seq<Pass<Value>>, settled: seq<Settlement>)

  datatype Queue<Key, Value> = Queue(
    activeByKey: map<Key, Work>,
    drains: map<Work, Drain<Key, Value>>,
    nextWork: Work,
    nextWaiter: Waiter,
    histories: map<Key, History<Value>>)

  function HistoryOf<Key, Value>(q: Queue<Key, Value>, key: Key): History<Value> {
    if key in q.histories then q.histories[key] else History([], [], [])
  }

  function Empty<Key, Value>(): Queue<Key, Value> {
    Queue(map[], map[], 0, 0, map[])
  }

  /** enqueue, including the first segment of the drain it may start. */
  function Enqueue<Key, Value>(q: Queue<Key, Value>, key: Key, value: Value): Queue<Key, Value> {
    var waiter, h := q.nextWaiter, HistoryOf(q, key);
    var arrived := h.(enqueued := h.enqueued + [(waiter, value)]);
    if key in q.activeByKey && q.activeByKey[key] in q.drains then
      var work := q.activeByKey[key];
      var trailing := q.drains[work].trailing;
      var waiters := if trailing.Some? then trailing.value.waiters + [waiter] else [waiter];
      q.(drains := q.drains[work := q.drains[work].(trailing := Some(Batch(value, waiters)))],
         nextWaiter := waiter + 1,
         histories := q.histories[key := arrived])
    else
      q.(activeByKey := q.activeByKey[key := q.nextWork],
         drains := q.drains[q.nextWork := Drain(key, Batch(value, [waiter]), None)],
         nextWork := q.nextWork + 1,
         nextWaiter := waiter + 1,
         histories := q.histories[key := arrived.(passes := arrived.passes + [Pass(value, |arrived.enqueued|)])])
  }

  function Settled(waiters: seq<Waiter>, pass: nat, ok: bool): (r: seq<Settlement>)
    ensures |r| == |waiters|
  {
    seq(|waiters|, i requires 0 <= i < |waiters| => Settlement(waiters[i], pass, ok))
  }

  /** The pass of `work` ended: settle its batch, then start the trailing pass or leave. */
  function PassEnded<Key, Value>(q: Queue<Key, Value>, work: Work, ok: bool): Queue<Key, Value> {
    if work !in q.drains then q
    else
      var d := q.drains[work];
      var h := HistoryOf(q, d.key);
      var settled := h.(settled := h.settled + Settled(d.batch.waiters, |h.passes|, ok));
      if d.trailing.Some? then
        q.(drains := q.drains[work := Drain(d.key, d.trailing.value, None)],
           histories := q.histories[d.key :=
             settled.(passes := settled.passes + [Pass(d.trailing.value.value, |settled.enqueued|)])])
      else
        q.(drains := q.drains - {work},
           activeByKey := if d.key in q.activeByKey && q.activeByKey[d.key] == work
                          then q.activeByKey - {d.key} else q.activeByKey,
           histories := q.histories[d.key := settled])
  }

  datatype Event<Key, Value> =
    | EEnqueue(key: Key, value: Value)
    | EPassEnded(work: Work, ok: bool)

  function Next<Key, Value>(q: Queue<Key, Value>, e: Event<Key, Value>): Queue<Key, Value> {
    match e
    case EEnqueue(key, value) => Enqueue(q, key, value)
    case EPassEnded(work, ok) => PassEnded(q, work, ok)
  }

  function After<Key, Value>(q: Queue<Key, Value>, events: seq<Event<Key, Value>>): Queue<Key, Value>
    decreases |events|
  {
    if events == [] then q else After(Next(q, events[0]), events[1..])
  }

  // --------------------------------------------------------------- invariants

  function Waiters<Value>(enqueued: seq<(Waiter, Value)>): (r: seq<Waiter>)
    ensures |r| == |enqueued|
  {
    seq(|enqueued|, i requires 0 <= i < |enqueued| => enqueued[i].0)
  }

  function SettledWaiters(settled: seq<Settlement>): (r: seq<Waiter>)
    ensures |r| == |settled|
  {
    seq(|settled|, i requires 0 <= i < |settled| => settled[i].waiter)
  }

  /** Who still waits for `d`, in order. */
  function Owed<Key, Value>(d: Option<Drain<Key, Value>>): seq<Waiter> {
    if d.None? then []
    else d.value.batch.waiters + (if d.value.trailing.Some? then d.value.trailing.value.waiters else [])
  }

  /** Passes start one after another, each with the value enqueued last. */
  ghost predicate PassesLatest<Value>(h: History<Value>) {
    && (forall i | 0 <= i < |h.passes| :: 0 < h.passes[i].since <= |h.enqueued| &&
          h.passes[i].value == h.enqueued[h.passes[i].since - 1].1)
    && (forall i, j | 0 <= i < j < |h.passes| :: h.passes[i].since < h.passes[j].since)
  }

  /** `i` was settled by the first pass that started after it was enqueued. */
  ghost predicate SettledByFirst<Value>(h: History<Value>, i: nat)
    requires i < |h.settled| <= |h.enqueued|
  {
    var pass := h.settled[i].pass;
    && h.settled[i].waiter == h.enqueued[i].0
    && 0 < pass <= |h.passes|
    && i < h.passes[pass - 1].since
    && (pass > 1 ==> h.passes[pass - 2].since <= i)
  }

  ghost predicate KeyInv<Key, Value>(h: History<Value>, d: Option<Drain<Key, Value>>) {
    && Waiters(h.enqueued) == SettledWaiters(h.settled) + Owed(d)
    && PassesLatest(h)
    && |h.settled| <= |h.enqueued|
    && (forall i | 0 <= i < |h.settled| :: SettledByFirst(h, i))
    && (d.None? ==> (h.passes == [] <==> h.enqueued == []) &&
                    (h.passes != [] ==> h.passes[|h.passes| - 1].since == |h.enqueued|))
    && (d.Some? ==> DrainInv(h, d.value))
  }

  /** The running pass is the last one; its batch is everybody enqueued between the two
      last passes; the trailing slot holds everybody since, with the latest value. */
  ghost predicate DrainInv<Key, Value>(h: History<Value>, d: Drain<Key, Value>) {
    && h.passes != []
    && var n := |h.passes|;
    && h.passes[n - 1].value == d.batch.value
    && h.passes[n - 1].since == |h.settled| + |d.batch.waiters|
    && (if n > 1 then h.passes[n - 2].since == |h.settled| else |h.settled| == 0)
    && d.batch.waiters != []
    && (d.trailing.Some? ==>
          d.trailing.value.waiters != [] && h.enqueued != [] &&
          d.trailing.value.value == h.enqueued[|h.enqueued| - 1].1)
  }

  function DrainOf<Key, Value>(q: Queue<Key, Value>, key: Key): Option<Drain<Key, Value>> {
    if key in q.activeByKey && q.activeByKey[key] in q.drains then Some(q.drains[q.activeByKey[key]]) else None
  }

  /** The map and the running drains agree: one drain per active key, and no other. */
  ghost predicate Paired<Key, Value>(q: Queue<Key, Value>) {
    && (forall key <- q.activeByKey :: q.activeByKey[key] in q.drains && q.drains[q.activeByKey[key]].key == key)
    && (forall work <- q.drains :: q.drains[work].key in q.activeByKey && q.activeByKey[q.drains[work].key] == work)
    && (forall work <- q.drains :: work < q.nextWork)
  }

  ghost predicate FreshWaiters<Key, Value>(q: Queue<Key, Value>) {
    forall key <- q.histories, i | 0 <= i < |q.histories[key].enqueued| ::
      q.histories[key].enqueued[i].0 < q.nextWaiter &&
      forall j | 0 <= j < i :: q.histories[key].enqueued[j].0 < q.histories[key].enqueued[i].0
  }

  ghost predicate Inv<Key(!new), Value>(q: Queue<Key, Value>) {
    && Paired(q) && FreshWaiters(q)
    && forall key :: KeyInv(HistoryOf(q, key), DrainOf(q, key))
  }

  // ---------------------------------------------------------- one key at a time

  /** A drain starts: first arrival for an idle key. */
  lemma ArriveIdle<Key, Value>(h: History<Value>, key: Key, waiter: Waiter, value: Value)
    requires KeyInv<Key, Value>(h, None)
    ensures var h' := h.(enqueued := h.enqueued + [(waiter, value)],
                         passes := h.passes + [Pass(value, |h.enqueued| + 1)]);
      KeyInv(h', Some(Drain(key, Batch(value, [waiter]), None)))
  {
    hide Waiters, SettledWaiters, SettledByFirst, PassesLatest;
    WaitersGrow(h, waiter, value);
    PassesStay(h, waiter, value);
    PassAppended(h.(enqueued := h.enqueued + [(waiter, value)]), Pass(value, |h.enqueued| + 1));
  }

  /** An arrival during a pass joins the trailing slot. */
  lemma ArriveBusy<Key, Value>(h: History<Value>, d: Drain<Key, Value>, waiter: Waiter, value: Value)
    requires KeyInv(h, Some(d))
    ensures var h' := h.(enqueued := h.enqueued + [(waiter, value)]);
      var waiters := if d.trailing.Some? then d.trailing.value.waiters + [waiter] else [waiter];
      KeyInv(h', Some(d.(trailing := Some(Batch(value, waiters)))))
  {
    var waiters := if d.trailing.Some? then d.trailing.value.waiters + [waiter] else [waiter];
    var d' := d.(trailing := Some(Batch(value, waiters)));
    hide Waiters, SettledWaiters, SettledByFirst, PassesLatest;
    OwedGrows(d, waiter, value);
    hide Owed;
    WaitersGrow(h, waiter, value);
    PassesStay(h, waiter, value);
    Regroup(SettledWaiters(h.settled), Owed(Some(d)), [waiter]);
  }

  lemma OwedGrows<Key, Value>(d: Drain<Key, Value>, waiter: Waiter, value: Value)
    ensures var waiters := if d.trailing.Some? then d.trailing.value.waiters + [waiter] else [waiter];
      Owed(Some(d.(trailing := Some(Batch(value, waiters))))) == Owed(Some(d)) + [waiter]
  {
  }

  lemma Regroup(a: seq<Waiter>, b: seq<Waiter>, c: seq<Waiter>)
    ensures (a + b) + c == a + (b + c)
  {
  }

  lemma WaitersGrow<Value>(h: History<Value>, waiter: Waiter, value: Value)
    ensures Waiters(h.enqueued + [(waiter, value)]) == Waiters(h.enqueued) + [waiter]
  {
  }

  /** An arrival leaves what is known of passes and settlements. */
  lemma PassesStay<Value>(h: History<Value>, waiter: Waiter, value: Value)
    requires PassesLatest(h) && |h.settled| <= |h.enqueued|
    requires forall i | 0 <= i < |h.settled| :: SettledByFirst(h, i)
    ensures var h' := h.(enqueued := h.enqueued + [(waiter, value)]);
      PassesLatest(h') && forall i | 0 <= i < |h'.settled| :: SettledByFirst(h', i)
  {
    var h' := h.(enqueued := h.enqueued + [(waiter, value)]);
    forall i | 0 <= i < |h'.settled| ensures SettledByFirst(h', i) { assert SettledByFirst(h, i); }
  }

  lemma EndBatch<Key, Value>(h: History<Value>, d: Drain<Key, Value>, ok: bool)
    requires KeyInv(h, Some(d))
    ensures var h' := h.(settled := h.settled + Settled(d.batch.waiters, |h.passes|, ok));
      && SettledWaiters(h'.settled) == SettledWaiters(h.settled) + d.batch.waiters
      && |h'.settled| == h.passes[|h.passes| - 1].since <= |h.enqueued|
      && (forall i | 0 <= i < |h'.settled| :: SettledByFirst(h', i))
  {
    hide SettledByFirst, PassesLatest, Waiters, SettledWaiters, Settled;
    SettledGrow(h.settled, d.batch.waiters, |h.passes|, ok);
    assert |h.passes| >= 1 && h.passes[|h.passes| - 1].since <= |h.enqueued| by {
      LastPassBounded(h);
    }
    BatchSettled(h, d.batch.waiters, ok, |Owed(Some(d))|);
  }

  lemma LastPassBounded<Value>(h: History<Value>)
    requires PassesLatest(h) && h.passes != []
    ensures h.passes[|h.passes| - 1].since <= |h.enqueued|
  {
  }

  lemma SettledGrow(settled: seq<Settlement>, waiters: seq<Waiter>, pass: nat, ok: bool)
    ensures SettledWaiters(settled + Settled(waiters, pass, ok)) == SettledWaiters(settled) + waiters
    ensures |Settled(waiters, pass, ok)| == |waiters|
  {
  }

  /** The batch of the last pass is settled by it: its waiters come next in order. */
  lemma BatchSettled<Value>(h: History<Value>, waiters: seq<Waiter>, ok: bool, owed: nat)
    requires forall i | 0 <= i < |h.settled| :: |h.settled| <= |h.enqueued| && SettledByFirst(h, i)
    requires |waiters| <= owed && |h.enqueued| == |h.settled| + owed
    requires SettledWaiters(h.settled) + waiters <= Waiters(h.enqueued)
    requires h.passes != [] && h.passes[|h.passes| - 1].since == |h.settled| + |waiters|
    requires if |h.passes| > 1 then h.passes[|h.passes| - 2].since == |h.settled| else |h.settled| == 0
    ensures var h' := h.(settled := h.settled + Settled(waiters, |h.passes|, ok));
      |h'.settled| <= |h.enqueued| && forall i | 0 <= i < |h'.settled| :: SettledByFirst(h', i)
  {
    var h' := h.(settled := h.settled + Settled(waiters, |h.passes|, ok));
    var n := |h.settled|;
    forall i | 0 <= i < |h'.settled| ensures SettledByFirst(h', i) {
      if i < n {
        assert SettledByFirst(h, i);
      } else {
        assert Waiters(h.enqueued)[i] == (SettledWaiters(h.settled) + waiters)[i] == waiters[i - n];
      }
    }
  }

  /** The pass ends with nobody trailing. */
  lemma EndIdle<Key, Value>(h: History<Value>, d: Drain<Key, Value>, ok: bool)
    requires KeyInv(h, Some(d)) && d.trailing.None?
    ensures KeyInv<Key, Value>(h.(settled := h.settled + Settled(d.batch.waiters, |h.passes|, ok)), None)
  {
    EndBatch(h, d, ok);
  }

  /** The pass ends and the trailing batch runs next. */
  lemma EndTrailing<Key, Value>(h: History<Value>, d: Drain<Key, Value>, ok: bool)
    requires KeyInv(h, Some(d)) && d.trailing.Some?
    ensures var h' := h.(settled := h.settled + Settled(d.batch.waiters, |h.passes|, ok),
                         passes := h.passes + [Pass(d.trailing.value.value, |h.enqueued|)]);
      KeyInv(h', Some(Drain(d.key, d.trailing.value, None)))
  {
    EndBatch(h, d, ok);
    var mid := h.(settled := h.settled + Settled(d.batch.waiters, |h.passes|, ok));
    var next := Drain(d.key, d.trailing.value, None);
    OwedNext(d);
    hide Waiters, SettledWaiters, Settled, Owed, PassesLatest, SettledByFirst;
    Regroup(SettledWaiters(h.settled), d.batch.waiters, Owed(Some(next)));
    assert |Waiters(h.enqueued)| == |mid.settled| + |d.trailing.value.waiters|;
    PassAppended(mid, Pass(d.trailing.value.value, |h.enqueued|));
  }

  lemma OwedNext<Key, Value>(d: Drain<Key, Value>)
    requires d.trailing.Some?
    ensures var next := Some(Drain(d.key, d.trailing.value, None));
      Owed(Some(d)) == d.batch.waiters + Owed(next) && Owed(next) == d.trailing.value.waiters
  {
  }

  /** A new pass with the value enqueued last. */
  lemma PassAppended<Value>(h: History<Value>, pass: Pass<Value>)
    requires PassesLatest(h) && |h.settled| <= |h.enqueued|
    requires forall i | 0 <= i < |h.settled| :: SettledByFirst(h, i)
    requires h.enqueued != [] && pass == Pass(h.enqueued[|h.enqueued| - 1].1, |h.enqueued|)
    requires h.passes != [] ==> h.passes[|h.passes| - 1].since < |h.enqueued|
    ensures var h' := h.(passes := h.passes + [pass]);
      PassesLatest(h') && forall i | 0 <= i < |h'.settled| :: SettledByFirst(h', i)
  {
    var h' := h.(passes := h.passes + [pass]);
    forall i | 0 <= i < |h'.settled| ensures SettledByFirst(h', i) { assert SettledByFirst(h, i); }
  }
}
