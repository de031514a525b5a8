/** The queue object: the active map, the ActiveWork objects with the drains suspended on
    them, and a record of who was resolved or rejected. */
module WorkQueueCode {
  import opened Wrappers
  import opened WorkQueueModel

  class LatestTrailingWorkQueue<Key(==), Value> {
    var activeByKey: map<Key, Work>
    var drains: map<Work, Drain<Key, Value>>
    var nextWork: Work
    var nextWaiter: Waiter
    var histories: map<Key, History<Value>>

    ghost function State(): Queue<Key, Value>
      reads this
    {
      Queue(activeByKey, drains, nextWork, nextWaiter, histories)
    }

    constructor ()
      ensures State() == Empty<Key, Value>()
    {
      activeByKey, drains, nextWork, nextWaiter, histories := map[], map[], 0, 0, map[];
    }

    method Enqueue(key: Key, value: Value) returns (waiter: Waiter)
      modifies this
      ensures State() == WorkQueueModel.Enqueue(old(State()), key, value)
      ensures waiter == old(nextWaiter)
    {
      waiter := nextWaiter;
      nextWaiter := nextWaiter + 1;
      var history := if key in histories then histories[key] else History([], [], []);
      history := history.(enqueued := history.enqueued + [(waiter, value)]);
      histories := histories[key := history];
      if key in activeByKey && activeByKey[key] in drains {
        var active := activeByKey[key];
        var drain := drains[active];
        if drain.trailing.Some? {
          drain := drain.(trailing := Some(Batch(value, drain.trailing.value.waiters + [waiter])));
        } else {
          drain := drain.(trailing := Some(Batch(value, [waiter])));
        }
        drains := drains[active := drain];
        return;
      }
      var next := nextWork;
      nextWork := nextWork + 1;
      activeByKey := activeByKey[key := next];
      Run(next, key, Batch(value, [waiter]));
    }

    /** The head of the drain loop: call `run` and suspend. */
    method Run(work: Work, key: Key, batch: Batch<Value>)
      requires key in histories
      modifies this`drains, this`histories
      ensures drains == old(drains)[work := Drain(key, batch, None)]
      ensures histories == old(histories)[key :=
        old(histories)[key].(passes := old(histories)[key].passes + [Pass(batch.value, |old(histories)[key].enqueued|)])]
    {
      drains := drains[work := Drain(key, batch, None)];
      var history := histories[key];
      histories := histories[key := history.(passes := history.passes + [Pass(batch.value, |history.enqueued|)])];
    }

    /** The body of the drain loop after its await: settle the batch, take the trailing one. */
    method PassEnded(work: Work, ok: bool)
      requires work in drains
      modifies this
      ensures State() == WorkQueueModel.PassEnded(old(State()), work, ok)
    {
      var drain := drains[work];
      var key := drain.key;
      var history := if key in histories then histories[key] else History([], [], []);
      var pass, before := |history.passes|, history;
      for i := 0 to |drain.batch.waiters|
        invariant history == before.(settled := before.settled + Settled(drain.batch.waiters[..i], pass, ok))
      {
        history := history.(settled := history.settled + [Settlement(drain.batch.waiters[i], pass, ok)]);
        assert Settled(drain.batch.waiters[..i + 1], pass, ok) ==
               Settled(drain.batch.waiters[..i], pass, ok) + [Settlement(drain.batch.waiters[i], pass, ok)];
      }
      assert drain.batch.waiters[..|drain.batch.waiters|] == drain.batch.waiters;
      histories := histories[key := history];
      if drain.trailing.Some? {
        Run(work, key, drain.trailing.value);
        return;
      }
      drains := drains - {work};
      if key in activeByKey && activeByKey[key] == work {
        activeByKey := activeByKey - {key};
      }
    }
  }
}
