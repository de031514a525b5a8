/** withEngineDirectoryFence (apps/server/src/engine-directory-fence.ts): a lock per
    directory built from a chain of promises in a map. */
module DirectoryFence {
  import opened Wrappers

  /** The promise a call puts into the map is numbered by the call that creates it. */
  type Promise = nat

  datatype Phase = Waiting | Running | Finished(ok: bool)

  /** One call: the promise it found under its key (none if the key was absent) and its
      progress. Its own promise has the call's number. */
  datatype Call<Key> = Call(key: Key, previous: Option<Promise>, phase: Phase)

  datatype Fence<Key> = Fence(queue: map<Key, Promise>, released: set<Promise>, calls: seq<Call<Key>>)

  datatype Event<Key> = Arrive(key: Key) | Start(call: nat) | Finish(call: nat, ok: bool)

  /** The wait on the previous promise is over. */
  predicate Ready<Key>(f: Fence<Key>, i: nat)
    requires i < |f.calls|
  {
    f.calls[i].phase == Waiting && (f.calls[i].previous.None? || f.calls[i].previous.value in f.released)
  }

  function Next<Key>(f: Fence<Key>, e: Event<Key>): Fence<Key> {
    match e
    case Arrive(key) =>
      var previous := if key in f.queue then Some(f.queue[key]) else None;
      f.(queue := f.queue[key := |f.calls|], calls := f.calls + [Call(key, previous, Waiting)])
    case Start(i) =>
      if i < |f.calls| && Ready(f, i) then f.(calls := f.calls[i := f.calls[i].(phase := Running)]) else f
    case Finish(i, ok) =>
      if i < |f.calls| && f.calls[i].phase == Running then
        var key := f.calls[i].key;
        f.(calls := f.calls[i := f.calls[i].(phase := Finished(ok))],
           released := f.released + {i},
           queue := if key in f.queue && f.queue[key] == i then f.queue - {key} else f.queue)
      else f
  }

  function After<Key>(f: Fence<Key>, events: seq<Event<Key>>): Fence<Key>
    decreases |events|
  {
    if events == [] then f else After(Next(f, events[0]), events[1..])
  }

  function Empty<Key>(): Fence<Key> {
    Fence(map[], {}, [])
  }

  predicate Done<Key>(f: Fence<Key>, i: nat)
    requires i < |f.calls|
  {
    f.calls[i].phase.Finished?
  }

  /** No call of this key lies strictly between the two numbers. */
  ghost predicate Adjacent<Key>(f: Fence<Key>, a: nat, b: nat, key: Key)
    requires b <= |f.calls|
  {
    forall k | a < k < b :: f.calls[k].key != key
  }

  ghost predicate Chained<Key>(f: Fence<Key>, i: nat)
    requires i < |f.calls|
  {
    var c := f.calls[i];
    && (c.previous.Some? ==>
          c.previous.value < i && f.calls[c.previous.value].key == c.key && Adjacent(f, c.previous.value, i, c.key))
    && (c.previous.None? ==> forall k | 0 <= k < i && f.calls[k].key == c.key :: Done(f, k))
    && (c.phase != Waiting ==> c.previous.Some? ==> Done(f, c.previous.value))
  }

  ghost predicate Inv<Key>(f: Fence<Key>) {
    && (forall i | 0 <= i < |f.calls| :: Chained(f, i))
    && (forall i :: i in f.released <==> 0 <= i < |f.calls| && Done(f, i))
    && (forall key <- f.queue :: f.queue[key] < |f.calls| && f.calls[f.queue[key]].key == key &&
          !Done(f, f.queue[key]) && Adjacent(f, f.queue[key], |f.calls|, key))
    && (forall i | 0 <= i < |f.calls| && !Done(f, i) :: f.calls[i].key in f.queue)
  }

  lemma ArriveKeeps<Key>(f: Fence<Key>, key: Key)
    requires Inv(f)
    ensures Inv(Next(f, Arrive(key)))
  {
    var g := Next(f, Arrive(key));
    forall i | 0 <= i < |g.calls| ensures Chained(g, i) {
      if i < |f.calls| { assert Chained(f, i); }
    }
  }

  lemma StartKeeps<Key>(f: Fence<Key>, call: nat)
    requires Inv(f)
    ensures Inv(Next(f, Start(call)))
  {
    var g := Next(f, Start(call));
    forall i | 0 <= i < |g.calls| ensures Chained(g, i) {
      assert Chained(f, i);
    }
  }

  lemma FinishKeeps<Key>(f: Fence<Key>, call: nat, ok: bool)
    requires Inv(f)
    ensures Inv(Next(f, Finish(call, ok)))
  {
    var g := Next(f, Finish(call, ok));
    forall i | 0 <= i < |g.calls| ensures Chained(g, i) {
      assert Chained(f, i);
    }
    if call < |f.calls| && f.calls[call].phase == Running {
      var key := f.calls[call].key;
      forall i | 0 <= i < |g.calls| && !Done(g, i) ensures g.calls[i].key in g.queue {
        assert !Done(f, i);
        if f.calls[i].key == key && f.queue[key] == call {
          EarlierDone(f, call, i);
        }
      }
    }
  }

  lemma StepKeeps<Key>(f: Fence<Key>, e: Event<Key>)
    requires Inv(f)
    ensures Inv(Next(f, e))
  {
    hide Inv, Next;
    match e
    case Arrive(key) => ArriveKeeps(f, key);
    case Start(call) => StartKeeps(f, call);
    case Finish(call, ok) => FinishKeeps(f, call, ok);
  }

  /** The heart of the chain: when a call has started, all earlier calls of its key are done. */
  lemma {:induction false} EarlierDone<Key>(f: Fence<Key>, i: nat, k: nat)
    requires Inv(f) && i < |f.calls| && f.calls[i].phase != Waiting
    requires k < i && f.calls[k].key == f.calls[i].key
    ensures Done(f, k)
    decreases i
  {
    assert Chained(f, i);
    if f.calls[i].previous.Some? {
      var p := f.calls[i].previous.value;
      if k < p { EarlierDone(f, p, k); }
    }
  }

  lemma {:induction false} RunKeeps<Key>(f: Fence<Key>, events: seq<Event<Key>>)
    requires Inv(f)
    ensures Inv(After(f, events))
    decreases |events|
  {
    if events != [] {
      StepKeeps(f, events[0]);
      hide Inv, Next;
      RunKeeps(Next(f, events[0]), events[1..]);
    }
  }

  /** In every run, failing operations included: two operations of one key never run at
      once and they start in order of arrival. */
  lemma MutualExclusion<Key>(events: seq<Event<Key>>, i: nat, j: nat)
    requires var f := After(Empty<Key>(), events);
      i < j < |f.calls| && f.calls[i].key == f.calls[j].key && f.calls[j].phase != Waiting
    ensures Done(After(Empty<Key>(), events), i)
  {
    RunKeeps(Empty<Key>(), events);
    EarlierDone(After(Empty<Key>(), events), j, i);
  }

  /** A waiting operation may start exactly when every earlier operation of its own key has
      finished, successfully or not; operations of other keys never matter. */
  lemma StartsExactlyInTurn<Key>(events: seq<Event<Key>>, i: nat)
    requires var f := After(Empty<Key>(), events); i < |f.calls| && f.calls[i].phase == Waiting
    ensures var f := After(Empty<Key>(), events);
      Ready(f, i) <==> forall k | 0 <= k < i && f.calls[k].key == f.calls[i].key :: Done(f, k)
  {
    RunKeeps(Empty<Key>(), events);
    var f := After(Empty<Key>(), events);
    assert Chained(f, i);
    if Ready(f, i) {
      forall k | 0 <= k < i && f.calls[k].key == f.calls[i].key ensures Done(f, k) {
        if f.calls[i].previous.Some? && k < f.calls[i].previous.value {
          EarlierDone(f, f.calls[i].previous.value, k);
        }
      }
    }
  }

  /** The map holds a key exactly while some call for it is unfinished, and then holds the
      promise of the latest call. */
  lemma MapHoldsUnfinished<Key>(events: seq<Event<Key>>, key: Key)
    ensures var f := After(Empty<Key>(), events);
      && (key in f.queue <==> exists i :: 0 <= i < |f.calls| && f.calls[i].key == key && !Done(f, i))
      && (key in f.queue ==>
            f.queue[key] < |f.calls| && f.calls[f.queue[key]].key == key &&
            forall i | f.queue[key] < i < |f.calls| :: f.calls[i].key != key)
  {
    RunKeeps(Empty<Key>(), events);
  }

  /** Nobody is stuck: an unfinished key always has a call that is running or may start. */
  lemma SomebodyCanMove<Key>(events: seq<Event<Key>>, key: Key)
    requires key in After(Empty<Key>(), events).queue
    ensures var f := After(Empty<Key>(), events);
      exists i :: 0 <= i < |f.calls| && f.calls[i].key == key && (f.calls[i].phase == Running || Ready(f, i))
  {
    MapHoldsUnfinished(events, key);
    var f := After(Empty<Key>(), events);
    var i := FirstUnfinished(f, key, 0);
    if f.calls[i].phase == Waiting { StartsExactlyInTurn(events, i); }
  }

  lemma {:induction false} FirstUnfinished<Key>(f: Fence<Key>, key: Key, from: nat) returns (i: nat)
    requires exists k :: from <= k < |f.calls| && f.calls[k].key == key && !Done(f, k)
    requires forall k | 0 <= k < from && f.calls[k].key == key :: Done(f, k)
    ensures i < |f.calls| && f.calls[i].key == key && !Done(f, i)
    ensures forall k | 0 <= k < i && f.calls[k].key == key :: Done(f, k)
    decreases |f.calls| - from
  {
    if f.calls[from].key == key && !Done(f, from) {
      i := from;
    } else {
      i := FirstUnfinished(f, key, from + 1);
    }
  }

  /** A call starts only from waiting, ends only from running, and ends as its operation does;
      whoever waits behind it is let go either way. */
  lemma EndsAsItself<Key>(f: Fence<Key>, e: Event<Key>, i: nat)
    requires i < |f.calls|
    ensures i < |Next(f, e).calls|
    ensures Next(f, e).calls[i].phase ==
      if e.Finish? && e.call == i && f.calls[i].phase == Running then Finished(e.ok)
      else if e.Start? && e.call == i && Ready(f, i) then Running
      else f.calls[i].phase
    ensures Next(f, e).calls[i].phase.Finished? && !f.calls[i].phase.Finished? ==> i in Next(f, e).released
  {
  }

  /** The fence of one server config: the map, and the calls suspended on it. */
  class EngineDirectoryFence<Key(==)> {
    var queue: map<Key, Promise>
    var released: set<Promise>
    var calls: seq<Call<Key>>

    ghost function State(): Fence<Key>
      reads this
    {
      Fence(queue, released, calls)
    }

    constructor ()
      ensures State() == Empty<Key>()
    {
      queue, released, calls := map[], {}, [];
    }

    /** The call up to its await on the previous promise. */
    method Enter(key: Key) returns (call: nat)
      modifies this
      ensures State() == Next(old(State()), Arrive(key)) && call == |old(calls)|
    {
      call := |calls|;
      var previous := if key in queue then Some(queue[key]) else None;
      queue := queue[key := call];
      calls := calls + [Call(key, previous, Waiting)];
    }

    /** The previous promise is settled: the operation starts. */
    method Begin(call: nat)
      requires call < |calls| && Ready(State(), call)
      modifies this
      ensures State() == Next(old(State()), Start(call))
    {
      calls := calls[call := calls[call].(phase := Running)];
    }

    /** The finally block. */
    method Leave(call: nat, ok: bool)
      requires call < |calls| && calls[call].phase == Running
      modifies this
      ensures State() == Next(old(State()), Finish(call, ok))
    {
      var key := calls[call].key;
      calls := calls[call := calls[call].(phase := Finished(ok))];
      released := released + {call};
      if key in queue && queue[key] == call {
        queue := queue - {key};
      }
    }
  }
}
