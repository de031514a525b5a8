/** The scheduling half of the CloudProviderSync class, one method per source method (or
    per callback). */
module CloudSyncCode {
  import opened Wrappers
  import opened CloudSyncModel

  class CloudProviderSync {
    var session: Option<Context>
    var activeRun: Option<ActiveRun>
    var trailingRun: Option<TrailingRun>
    var ops: seq<Operation>
    var fates: seq<Fate>
    var log: seq<Settlement>

    ghost function State(): Sync
      reads this
    {
      Sync(session, activeRun, trailingRun, ops, fates, log)
    }

    constructor ()
      ensures State() == Empty()
    {
      session, activeRun, trailingRun, ops, fates, log := None, None, None, [], [], [];
    }

    method SetSession(context: Context)
      requires Bounded(State())
      modifies this
      ensures State() == CloudSyncModel.SetSession(old(State()), context) && Bounded(State())
    {
      if session == Some(context) {
        return;
      }
      session := Some(context);
      var _ := Run();
    }

    method ClearSession()
      requires Bounded(State())
      modifies this
      ensures State() == CloudSyncModel.ClearSession(old(State())) && Bounded(State())
    {
      session := None;
      var trailing := trailingRun;
      trailingRun := None;
      if trailing.Some? {
        fates := fates[trailing.value.n := SignedOut];
        log := log + [Settlement(OfTrailing(trailing.value.n), NoSession)];
      }
      var _ := Enqueue(Sweep);
    }

    /** `this.queue = this.queue.then(operation)`: the operation's place in the queue. */
    method Enqueue(kind: Kind) returns (op: nat)
      modifies this`ops
      ensures State() == CloudSyncModel.Enqueue(old(State()), kind) && op == |old(ops)|
    {
      op := |ops|;
      ops := ops + [Operation(kind, Queued)];
    }

    method Run() returns (promise: Option<Promise>)
      requires Bounded(State())
      modifies this
      ensures (State(), promise) == CloudSyncModel.Run(old(State())) && Bounded(State())
    {
      if session.None? {
        return None;
      }
      var context := session.value;
      if activeRun.Some? && activeRun.value.context == context {
        var trailing := trailingRun;
        if trailing.Some? && trailing.value.context != context {
          trailingRun := None;
          Follow(trailing.value.n, activeRun.value.op);
        }
        return Some(OfPass(activeRun.value.op));
      }
      if trailingRun.Some? {
        if trailingRun.value.context != context {
          trailingRun := Some(trailingRun.value.(context := context));
        }
        return Some(OfTrailing(trailingRun.value.n));
      }
      if activeRun.Some? {
        var n := |fates|;
        fates := fates + [Open];
        trailingRun := Some(TrailingRun(context, n));
        return Some(OfTrailing(n));
      }
      var op := StartRun(context);
      return Some(OfPass(op));
    }

    method StartRun(context: Context) returns (op: nat)
      modifies this`ops, this`activeRun
      ensures State() == CloudSyncModel.StartRun(old(State()), context) && op == |old(ops)|
    {
      op := Enqueue(Pass(context));
      activeRun := Some(ActiveRun(context, op));
    }

    /** `promise.then(trailing.resolve, trailing.reject)` */
    method Follow(n: nat, op: nat)
      requires n < |fates| && op < |ops|
      modifies this`fates, this`log
      ensures State() == CloudSyncModel.Follow(old(State()), n, op)
    {
      fates := fates[n := Follows(op)];
      if ops[op].phase.Done? {
        log := log + [Settlement(OfTrailing(n), ops[op].phase.outcome)];
      }
    }

    method FinishRun(op: nat)
      requires Bounded(State())
      requires activeRun.Some? ==> activeRun.value.op == op && ops[op].phase.Done?
      modifies this
      ensures State() == CloudSyncModel.FinishRun(old(State()), op) && Bounded(State())
    {
      if activeRun.None? {
        return;
      }
      activeRun := None;
      var trailing := trailingRun;
      trailingRun := None;
      if trailing.None? {
        return;
      }
      var next := StartRun(trailing.value.context);
      Follow(trailing.value.n, next);
    }

    method BeginOperation(op: nat)
      requires Startable(State(), op)
      modifies this
      ensures State() == OpStarted(old(State()), op)
    {
      ops := ops[op := ops[op].(phase := Running)];
    }

    /** An operation settles; a pass resolves its promise, then those chained to it. */
    method EndOperation(op: nat, outcome: Outcome)
      requires op < |ops| && ops[op].phase == Running
      modifies this`ops, this`log
      ensures State() == OpEnded(old(State()), op, outcome)
    {
      ops := ops[op := ops[op].(phase := Done(outcome))];
      if ops[op].kind.Pass? {
        log := log + [Settlement(OfPass(op), outcome)];
        var before := log;
        for n := 0 to |fates|
          modifies this`log
          invariant log == before + Followers(fates[..n], op, outcome)
        {
          if fates[n] == Follows(op) {
            log := log + [Settlement(OfTrailing(n), outcome)];
          }
          assert fates[..n + 1][..n] == fates[..n];
        }
        assert fates[..|fates|] == fates;
      }
    }
  }
}
