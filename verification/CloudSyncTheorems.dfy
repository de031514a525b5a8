/** What CloudProviderSync's scheduler keeps over every interleaving of setSession,
    clearSession, run, pass completion and reload retries. */
module CloudSyncTheorems {
  import opened Wrappers
  import opened CloudSyncModel

  // --------------------------------------------------------------- invariants

  /** An operation has started only after every operation before it settled. */
  ghost predicate Ordered(ops: seq<Operation>) {
    forall k, i | 0 <= k < i < |ops| && ops[i].phase != Queued :: ops[k].phase.Done?
  }

  /** The context of the pass enqueued last. */
  function LastPass(ops: seq<Operation>): Option<Context> {
    if ops == [] then None
    else if ops[|ops| - 1].kind.Pass? then Some(ops[|ops| - 1].kind.context)
    else LastPass(ops[..|ops| - 1])
  }

  /** The active run is the last pass of the queue; every pass before it has settled. */
  ghost predicate Active(ops: seq<Operation>, activeRun: Option<ActiveRun>) {
    && (activeRun.None? ==> forall i | 0 <= i < |ops| && ops[i].kind.Pass? :: ops[i].phase.Done?)
    && (activeRun.Some? ==>
          var a := activeRun.value;
          && a.op < |ops| && ops[a.op].kind == Pass(a.context) && LastPass(ops) == Some(a.context)
          && (forall i | 0 <= i < |ops| && i != a.op && ops[i].kind.Pass? :: i < a.op && ops[i].phase.Done?))
  }

  /** A trailing run waits behind an active run of another context, for the session now set;
      its promise is the only one without a resolver. */
  ghost predicate Trailing(session: Option<Context>, activeRun: Option<ActiveRun>, trailingRun: Option<TrailingRun>,
                           fates: seq<Fate>) {
    && (trailingRun.Some? ==>
          var t := trailingRun.value;
          && activeRun.Some? && activeRun.value.context != t.context && session == Some(t.context)
          && t.n < |fates| && fates[t.n] == Open)
    && (forall m | 0 <= m < |fates| && fates[m] == Open :: trailingRun.Some? && trailingRun.value.n == m)
  }

  /** The newest scheduled context: trailing run, else the pass enqueued last. */
  function Newest(s: Sync): Option<Context> {
    if s.trailingRun.Some? then Some(s.trailingRun.value.context) else LastPass(s.ops)
  }

  ghost predicate Current(s: Sync) {
    s.session.Some? ==> Newest(s) == s.session
  }

  /** Every pass is followed by a sweep. */
  ghost predicate SweptAfter(ops: seq<Operation>) {
    forall i | 0 <= i < |ops| && ops[i].kind.Pass? :: exists j :: i < j < |ops| && ops[j].kind == Sweep
  }

  /** What a promise must have been settled with by now, if anything. */
  function Due(ops: seq<Operation>, fates: seq<Fate>, promise: Promise): Option<Outcome> {
    match promise
    case OfPass(i) => if i < |ops| && ops[i].kind.Pass? && ops[i].phase.Done? then Some(ops[i].phase.outcome) else None
    case OfTrailing(n) =>
      if n >= |fates| then None
      else
        match fates[n]
        case Open => None
        case SignedOut => Some(NoSession)
        case Follows(op) => if op < |ops| && ops[op].phase.Done? then Some(ops[op].phase.outcome) else None
  }

  ghost predicate Distinct(log: seq<Settlement>) {
    forall i, j | 0 <= i < j < |log| :: log[i].promise != log[j].promise
  }

  /** The resolve calls made so far are exactly the ones due. */
  ghost predicate Exact(ops: seq<Operation>, fates: seq<Fate>, log: seq<Settlement>) {
    forall p, o :: Settlement(p, o) in log <==> Due(ops, fates, p) == Some(o)
  }

  ghost predicate FatesBounded(ops: seq<Operation>, fates: seq<Fate>) {
    forall n | 0 <= n < |fates| && fates[n].Follows? :: fates[n].op < |ops| && ops[fates[n].op].kind.Pass?
  }

  ghost predicate Inv(s: Sync) {
    && Bounded(s) && Ordered(s.ops) && Active(s.ops, s.activeRun)
    && Trailing(s.session, s.activeRun, s.trailingRun, s.fates) && Current(s)
    && (s.session.None? ==> SweptAfter(s.ops))
    && FatesBounded(s.ops, s.fates) && Exact(s.ops, s.fates, s.log) && Distinct(s.log)
  }

  // ------------------------------------------------------------ the pieces

  lemma EnqueuePieces(s: Sync, kind: Kind)
    requires Ordered(s.ops) && Active(s.ops, s.activeRun) && FatesBounded(s.ops, s.fates) && Exact(s.ops, s.fates, s.log)
    ensures var q := Enqueue(s, kind);
      && Ordered(q.ops) && FatesBounded(q.ops, q.fates) && Exact(q.ops, q.fates, q.log)
      && LastPass(q.ops) == (if kind.Pass? then Some(kind.context) else LastPass(s.ops))
      && (!kind.Pass? ==> Active(q.ops, s.activeRun))
      && (kind.Pass? && (forall i | 0 <= i < |s.ops| && s.ops[i].kind.Pass? :: s.ops[i].phase.Done?) ==> Active(q.ops, Some(ActiveRun(kind.context, |s.ops|))))
      && (kind == Sweep ==> SweptAfter(q.ops))
      && (!kind.Pass? && SweptAfter(s.ops) ==> SweptAfter(q.ops))
  {
    var q := Enqueue(s, kind);
    assert q.ops[..|q.ops| - 1] == s.ops;
    assert forall i | 0 <= i < |s.ops| :: q.ops[i] == s.ops[i];
    forall p, o ensures Settlement(p, o) in q.log <==> Due(q.ops, q.fates, p) == Some(o) {
      assert Settlement(p, o) in s.log <==> Due(s.ops, s.fates, p) == Some(o);
    }
    if kind == Sweep {
      assert q.ops[|s.ops|].kind == Sweep;
    } else if SweptAfter(s.ops) && !kind.Pass? {
      forall i | 0 <= i < |q.ops| && q.ops[i].kind.Pass? ensures exists j :: i < j < |q.ops| && q.ops[j].kind == Sweep {
        var j :| i < j < |s.ops| && s.ops[j].kind == Sweep;
        assert q.ops[j].kind == Sweep;
      }
    }
  }

  /** Giving an open trailing promise a resolver settles it now if its pass has settled. */
  lemma FollowPieces(s: Sync, n: nat, op: nat)
    requires FatesBounded(s.ops, s.fates) && Exact(s.ops, s.fates, s.log) && Distinct(s.log)
    requires n < |s.fates| && s.fates[n] == Open && op < |s.ops| && s.ops[op].kind.Pass?
    ensures var q := Follow(s, n, op);
      FatesBounded(q.ops, q.fates) && Exact(q.ops, q.fates, q.log) && Distinct(q.log)
  {
    var q := Follow(s, n, op);
    forall o ensures Settlement(OfTrailing(n), o) !in s.log {
      assert Due(s.ops, s.fates, OfTrailing(n)).None?;
    }
    forall p, o ensures Settlement(p, o) in q.log <==> Due(q.ops, q.fates, p) == Some(o) {
      assert Settlement(p, o) in s.log <==> Due(s.ops, s.fates, p) == Some(o);
    }
  }

  lemma SignedOutPieces(s: Sync, n: nat)
    requires FatesBounded(s.ops, s.fates) && Exact(s.ops, s.fates, s.log) && Distinct(s.log)
    requires n < |s.fates| && s.fates[n] == Open
    ensures var fates, log := s.fates[n := SignedOut], s.log + [Settlement(OfTrailing(n), NoSession)];
      FatesBounded(s.ops, fates) && Exact(s.ops, fates, log) && Distinct(log)
  {
    var fates, log := s.fates[n := SignedOut], s.log + [Settlement(OfTrailing(n), NoSession)];
    forall o ensures Settlement(OfTrailing(n), o) !in s.log {
      assert Due(s.ops, s.fates, OfTrailing(n)).None?;
    }
    forall p, o ensures Settlement(p, o) in log <==> Due(s.ops, fates, p) == Some(o) {
      assert Settlement(p, o) in s.log <==> Due(s.ops, s.fates, p) == Some(o);
    }
  }

  lemma {:induction false} FollowersAre(fates: seq<Fate>, op: nat, outcome: Outcome)
    ensures Distinct(Followers(fates, op, outcome))
    ensures forall p, o :: Settlement(p, o) in Followers(fates, op, outcome) <==>
      o == outcome && p.OfTrailing? && p.n < |fates| && fates[p.n] == Follows(op)
  {
    if fates != [] {
      FollowersAre(fates[..|fates| - 1], op, outcome);
    }
  }

  lemma {:induction false} LastPassOf(ops: seq<Operation>, updated: seq<Operation>)
    requires |ops| == |updated| && forall i | 0 <= i < |ops| :: ops[i].kind == updated[i].kind
    ensures LastPass(updated) == LastPass(ops)
  {
    if ops != [] { LastPassOf(ops[..|ops| - 1], updated[..|ops| - 1]); }
  }

  // ------------------------------------------------------------ step by step

  /** Everything but the agreement with the session. */
  ghost predicate Core(s: Sync) {
    && Bounded(s) && Ordered(s.ops) && Active(s.ops, s.activeRun)
    && FatesBounded(s.ops, s.fates) && Exact(s.ops, s.fates, s.log) && Distinct(s.log)
    && (s.trailingRun.Some? ==> s.activeRun.Some? && s.fates[s.trailingRun.value.n] == Open)
    && (forall m | 0 <= m < |s.fates| && s.fates[m] == Open :: s.trailingRun.Some? && s.trailingRun.value.n == m)
    && (s.trailingRun.Some? && s.activeRun.value.context == s.trailingRun.value.context ==> false)
  }

  /** Whatever was scheduled before, run leaves the session's context scheduled newest. */
  lemma RunSchedules(s: Sync)
    requires Core(s) && s.session.Some?
    requires s.activeRun.None? ==> s.trailingRun.None?
    ensures Inv(Run(s).0)
    ensures Run(s).1.Some?
  {
    var context := s.session.value;
    if s.activeRun.Some? && s.activeRun.value.context == context {
      if s.trailingRun.Some? { FollowPieces(s, s.trailingRun.value.n, s.activeRun.value.op); }
    } else if s.trailingRun.Some? {
    } else if s.activeRun.Some? {
      var q := Run(s).0;
      forall p, o ensures Settlement(p, o) in q.log <==> Due(q.ops, q.fates, p) == Some(o) {
        assert Settlement(p, o) in s.log <==> Due(s.ops, s.fates, p) == Some(o);
      }
    } else {
      EnqueuePieces(s, Pass(context));
    }
  }

  lemma SetSessionKeeps(s: Sync, context: Context)
    requires Inv(s)
    ensures Inv(SetSession(s, context))
  {
    if s.session != Some(context) { RunSchedules(s.(session := Some(context))); }
  }

  lemma RunKeeps(s: Sync)
    requires Inv(s)
    ensures Inv(Run(s).0)
  {
    if s.session.Some? { RunSchedules(s); }
  }

  lemma ClearSessionKeeps(s: Sync)
    requires Inv(s)
    ensures Inv(ClearSession(s))
  {
    var q := s.(session := None, trailingRun := None);
    if s.trailingRun.Some? {
      SignedOutPieces(s, s.trailingRun.value.n);
      q := q.(fates := s.fates[s.trailingRun.value.n := SignedOut],
              log := s.log + [Settlement(OfTrailing(s.trailingRun.value.n), NoSession)]);
    }
    EnqueuePieces(q, Sweep);
  }

  lemma RetryKeeps(s: Sync)
    requires Inv(s)
    ensures Inv(Enqueue(s, ReloadRetry))
  {
    EnqueuePieces(s, ReloadRetry);
  }

  lemma OpStartedKeeps(s: Sync, i: nat)
    requires Inv(s)
    ensures Inv(OpStarted(s, i))
  {
    if Startable(s, i) {
      var q := OpStarted(s, i);
      LastPassOf(s.ops, q.ops);
      StartedExact(s, i);
      SweptKinds(s.ops, q.ops);
      hide Exact, Distinct, SweptAfter, LastPass, Due;
    }
  }

  /** Starting an operation settles nothing. */
  lemma StartedExact(s: Sync, i: nat)
    requires Startable(s, i) && Exact(s.ops, s.fates, s.log)
    ensures var q := OpStarted(s, i); Exact(q.ops, q.fates, q.log)
  {
    var q := OpStarted(s, i);
    forall p, o ensures Settlement(p, o) in q.log <==> Due(q.ops, q.fates, p) == Some(o) {
      assert Settlement(p, o) in s.log <==> Due(s.ops, s.fates, p) == Some(o);
    }
  }

  lemma SweptKinds(ops: seq<Operation>, updated: seq<Operation>)
    requires |ops| == |updated| && forall i | 0 <= i < |ops| :: ops[i].kind == updated[i].kind
    ensures SweptAfter(ops) ==> SweptAfter(updated)
  {
    if SweptAfter(ops) {
      forall i | 0 <= i < |updated| && updated[i].kind.Pass?
        ensures exists j :: i < j < |updated| && updated[j].kind == Sweep
      {
        var j :| i < j < |ops| && ops[j].kind == Sweep;
        assert updated[j].kind == Sweep;
      }
    }
  }

  lemma DistinctAppend(log: seq<Settlement>, added: seq<Settlement>)
    requires Distinct(log) && Distinct(added)
    requires forall a <- log, b <- added :: a.promise != b.promise
    ensures Distinct(log + added)
  {
    var all := log + added;
    forall j, k | 0 <= j < k < |all| ensures all[j].promise != all[k].promise {
      if j < |log| <= k { assert log[j] in log && added[k - |log|] in added; }
    }
  }

  /** What the end of pass `i` settles: its own promise and every one that follows it. */
  lemma Released(s: Sync, i: nat, outcome: Outcome)
    requires Exact(s.ops, s.fates, s.log) && i < |s.ops| && !s.ops[i].phase.Done? && s.ops[i].kind.Pass?
    ensures var added := [Settlement(OfPass(i), outcome)] + Followers(s.fates, i, outcome);
      && Distinct(added)
      && (forall p, o :: Settlement(p, o) in added <==>
            o == outcome && (p == OfPass(i) || (p.OfTrailing? && p.n < |s.fates| && s.fates[p.n] == Follows(i))))
      && (forall a <- s.log, b <- added :: a.promise != b.promise)
  {
    FollowersAre(s.fates, i, outcome);
    hide Followers;
    var added := [Settlement(OfPass(i), outcome)] + Followers(s.fates, i, outcome);
    forall a <- s.log, b <- added ensures a.promise != b.promise {
      assert Settlement(b.promise, b.outcome) in added && Settlement(a.promise, a.outcome) in s.log;
      assert Due(s.ops, s.fates, a.promise).Some?;
    }
  }

  lemma OpEndedSettles(s: Sync, i: nat, outcome: Outcome)
    requires FatesBounded(s.ops, s.fates) && Exact(s.ops, s.fates, s.log) && Distinct(s.log)
    requires i < |s.ops| && s.ops[i].phase == Running
    ensures var q := OpEnded(s, i, outcome);
      FatesBounded(q.ops, q.fates) && Exact(q.ops, q.fates, q.log) && Distinct(q.log)
  {
    var q := OpEnded(s, i, outcome);
    hide Followers, Distinct;
    var added: seq<Settlement> := [];
    if s.ops[i].kind.Pass? {
      added := [Settlement(OfPass(i), outcome)] + Followers(s.fates, i, outcome);
      Released(s, i, outcome);
      DistinctAppend(s.log, added);
      assert q.log == s.log + added;
    }
    forall p, o ensures Settlement(p, o) in q.log <==> Due(q.ops, q.fates, p) == Some(o) {
      assert Settlement(p, o) in s.log <==> Due(s.ops, s.fates, p) == Some(o);
      assert Settlement(p, o) in q.log <==> Settlement(p, o) in s.log || Settlement(p, o) in added;
    }
  }

  lemma OpEndedKeeps(s: Sync, i: nat, outcome: Outcome)
    requires Inv(s)
    ensures Inv(OpEnded(s, i, outcome))
  {
    if i < |s.ops| && s.ops[i].phase == Running {
      var q := OpEnded(s, i, outcome);
      OpEndedSettles(s, i, outcome);
      LastPassOf(s.ops, q.ops);
      SweptKinds(s.ops, q.ops);
    }
  }

  lemma FinishRunKeeps(s: Sync, i: nat)
    requires Inv(s)
    ensures Inv(FinishRun(s, i))
  {
    if s.activeRun.Some? && s.activeRun.value.op == i && s.ops[i].phase.Done? && s.trailingRun.Some? {
      var q, t := s.(activeRun := None, trailingRun := None), s.trailingRun.value;
      EnqueuePieces(q, Pass(t.context));
      FollowPieces(StartRun(q, t.context), t.n, |s.ops|);
    }
  }

  lemma StepKeeps(s: Sync, e: Event)
    requires Inv(s)
    ensures Inv(Next(s, e))
  {
    hide Inv, SetSession, ClearSession, Run, OpStarted, OpEnded, FinishRun, Enqueue;
    match e
    case ESetSession(context) => SetSessionKeeps(s, context);
    case EClearSession => ClearSessionKeeps(s);
    case ERun => RunKeeps(s);
    case EReloadRetry => RetryKeeps(s);
    case EOpStarted(op) => OpStartedKeeps(s, op);
    case EOpEnded(op, outcome) => OpEndedKeeps(s, op, outcome);
    case EFinishRun(op) => FinishRunKeeps(s, op);
  }

  // ---------------------------------------------------------------- every run

  lemma EmptyInv()
    ensures Inv(Empty())
  {
  }

  lemma {:induction false} AllKeep(s: Sync, events: seq<Event>)
    requires Inv(s)
    ensures Inv(After(s, events))
    decreases |events|
  {
    if events != [] {
      StepKeeps(s, events[0]);
      NextBounded(s, events[0]);
      hide Inv, Next;
      AllKeep(Next(s, events[0]), events[1..]);
    }
  }

  /** Whenever a session is set, the newest scheduled context is that session's; whenever
      none is, every pass still in the queue has a sweep behind it. */
  lemma NewestIsCurrent(events: seq<Event>)
    ensures var s := After(Empty(), events);
      && (s.session.Some? ==> Newest(s) == s.session)
      && (s.session.None? ==> s.trailingRun.None? && SweptAfter(s.ops))
  {
    EmptyInv();
    AllKeep(Empty(), events);
  }

  /** Passes, sweeps and reload retries never overlap and run in order of enqueueing. */
  lemma OneAtATime(events: seq<Event>, i: nat, j: nat)
    requires var s := After(Empty(), events); i < j < |s.ops| && s.ops[j].phase != Queued
    ensures After(Empty(), events).ops[i].phase.Done?
  {
    EmptyInv();
    AllKeep(Empty(), events);
  }

  /** A trailing run is promoted to a pass only for the session that is set at that moment. */
  lemma PromotedForSession(events: seq<Event>, op: nat)
    ensures var s := After(Empty(), events);
      var q := FinishRun(s, op);
      q.ops == s.ops || (s.session.Some? && q.ops == s.ops + [Operation(Pass(s.session.value), Queued)])
  {
    EmptyInv();
    AllKeep(Empty(), events);
  }

  /** A pass does not look at the session when it starts. It then runs for the session that
      is set exactly when one is set and no trailing run waits for another. */
  lemma StartsForSession(events: seq<Event>, i: nat)
    requires var s := After(Empty(), events); Startable(s, i) && s.ops[i].kind.Pass?
    ensures var s := After(Empty(), events);
      s.session == Some(s.ops[i].kind.context) <==> s.session.Some? && s.trailingRun.None?
  {
    EmptyInv();
    AllKeep(Empty(), events);
    StartableIsActive(After(Empty(), events), i);
  }

  lemma StartableIsActive(s: Sync, i: nat)
    requires Inv(s) && Startable(s, i) && s.ops[i].kind.Pass?
    ensures s.activeRun == Some(ActiveRun(s.ops[i].kind.context, i))
  {
  }

  /** `p` was returned by some call of run. */
  predicate HandedOut(s: Sync, p: Promise) {
    match p
    case OfPass(i) => i < |s.ops| && s.ops[i].kind.Pass?
    case OfTrailing(n) => n < |s.fates|
  }

  /** No promise is ever settled twice; a settled one was handed out and has the outcome of
      its pass (or the sign-out's); and one that is not settled is a pass still in the queue,
      follows one, or belongs to the trailing run. */
  lemma SettledExactlyOnce(events: seq<Event>, p: Promise)
    ensures var s := After(Empty(), events);
      && (forall i, j | 0 <= i < j < |s.log| :: s.log[i].promise != s.log[j].promise)
      && (forall o :: Settlement(p, o) in s.log <==> Due(s.ops, s.fates, p) == Some(o))
      && (Due(s.ops, s.fates, p).Some? ==> HandedOut(s, p))
      && (HandedOut(s, p) && Due(s.ops, s.fates, p).None? ==>
            match p
            case OfPass(i) => !s.ops[i].phase.Done?
            case OfTrailing(n) =>
              || (s.fates[n].Follows? && s.fates[n].op < |s.ops| && s.ops[s.fates[n].op].kind.Pass? &&
                    !s.ops[s.fates[n].op].phase.Done?)
              || (s.activeRun.Some? && s.trailingRun.Some? && s.trailingRun.value.n == n))
  {
    EmptyInv();
    AllKeep(Empty(), events);
  }

  /** The promise a call of run returns was handed out, and is settled neither twice nor
      with anything but what is due. */
  lemma RunHandsOut(events: seq<Event>)
    ensures var (q, p) := Run(After(Empty(), events));
      && (p.Some? <==> After(Empty(), events).session.Some?)
      && (p.Some? ==> HandedOut(q, p.value))
  {
    EmptyInv();
    AllKeep(Empty(), events);
  }

  /** Nothing is stuck: while an operation has not settled, one is running or may start. */
  lemma SomethingCanMove(events: seq<Event>, i: nat)
    requires var s := After(Empty(), events); i < |s.ops| && !s.ops[i].phase.Done?
    ensures var s := After(Empty(), events); exists k :: 0 <= k <= i && (Startable(s, k) || s.ops[k].phase == Running)
  {
    FirstUnsettled(After(Empty(), events), i);
  }

  lemma {:induction false} FirstUnsettled(s: Sync, i: nat)
    requires i < |s.ops| && !s.ops[i].phase.Done?
    ensures exists k :: 0 <= k <= i && (Startable(s, k) || s.ops[k].phase == Running)
  {
    if i > 0 && !s.ops[i - 1].phase.Done? {
      FirstUnsettled(s, i - 1);
    } else {
      assert Startable(s, i) || s.ops[i].phase == Running;
    }
  }

  // ------------------------------------------------------------------- limits

  lemma {:induction false} AfterAppend(s: Sync, events: seq<Event>, e: Event)
    requires Bounded(s)
    ensures After(s, events + [e]) == Next(After(s, events), e)
    decreases |events|
  {
    NextBounded(s, (events + [e])[0]);
    if events == [] {
      assert After(Next(s, e), []) == Next(s, e);
    } else {
      assert (events + [e])[1..] == events[1..] + [e];
      AfterAppend(Next(s, events[0]), events[1..], e);
    }
  }

  ghost predicate Reachable(s: Sync) {
    exists events :: After(Empty(), events) == s
  }

  lemma Reached(s: Sync, e: Event)
    requires Bounded(s) && Reachable(s)
    ensures Bounded(Next(s, e)) && Reachable(Next(s, e))
  {
    NextBounded(s, e);
    var events :| After(Empty(), events) == s;
    AfterAppend(Empty(), events, e);
  }

  /** A pass runs, its session is cleared, and the sweep waits behind it. */
  lemma ClearedMeanwhile(a: Context) returns (s: Sync)
    ensures Reachable(s)
    ensures s == Sync(None, Some(ActiveRun(a, 0)), None, [Operation(Pass(a), Running), Operation(Sweep, Queued)], [], [])
  {
    assert After(Empty(), []) == Empty();
    hide Reachable;
    Reached(Empty(), ESetSession(a));
    s := SetSession(Empty(), a);
    assert s.ops == [Operation(Pass(a), Queued)];
    Reached(s, EOpStarted(0));
    s := OpStarted(s, 0);
    Reached(s, EClearSession);
    s := ClearSession(s);
  }

  /** Then another session is set, and its trailing run promoted behind the sweep. */
  lemma PromotedBehindSweep(a: Context, b: Context) returns (s: Sync)
    requires a != b
    ensures Reachable(s) && Bounded(s) && s.session == Some(b) && s.trailingRun.None?
    ensures s.ops == [Operation(Pass(a), Done(Applied)), Operation(Sweep, Queued), Operation(Pass(b), Queued)]
  {
    s := ClearedMeanwhile(a);
    hide Reachable, Followers;
    Reached(s, ESetSession(b));
    s := SetSession(s, b);
    assert s.fates == [Open] && s.trailingRun == Some(TrailingRun(b, 0));
    Reached(s, EOpEnded(0, Applied));
    s := OpEnded(s, 0, Applied);
    Reached(s, EFinishRun(0));
    s := FinishRun(s, 0);
  }

  /** A trailing run is promoted for the session then set, but its pass starts only after
      the sweep before it: the session may have been cleared meanwhile. */
  lemma StartsSignedOut(a: Context, b: Context) returns (s: Sync)
    requires a != b
    ensures Reachable(s) && s.session.None? && Startable(s, 2) && s.ops[2].kind == Pass(b)
  {
    s := PromotedBehindSweep(a, b);
    hide Reachable;
    Reached(s, EOpStarted(1));
    s := OpStarted(s, 1);
    Reached(s, EClearSession);
    s := ClearSession(s);
    Reached(s, EOpEnded(1, Applied));
    s := OpEnded(s, 1, Applied);
  }

  /** After signing in again, a pass or a trailing run comes after the sign-out's sweep
      exactly when the active run is not of the same context: for the same context run
      hands out the old pass and schedules nothing behind the sweep. */
  lemma SignInSchedulesBehindSweep(events: seq<Event>, context: Context)
    requires After(Empty(), events).session.None?
    ensures var s := After(Empty(), events);
      var q := SetSession(s, context);
      (q.trailingRun.Some? || (q.ops != [] && q.ops[|q.ops| - 1].kind == Pass(context))) <==>
      !(s.activeRun.Some? && s.activeRun.value.context == context)
  {
    EmptyInv();
    AllKeep(Empty(), events);
    LastIsNoPass(After(Empty(), events).ops);
  }

  lemma LastIsNoPass(ops: seq<Operation>)
    requires SweptAfter(ops)
    ensures ops != [] ==> !ops[|ops| - 1].kind.Pass?
  {
  }

  /** Such a run: the session is set, the queue is idle, and the last thing done was the
      sweep that removed its providers. */
  lemma SweptWhileSignedIn(context: Context) returns (s: Sync)
    ensures Reachable(s) && s.session == Some(context) && s.activeRun.None? && s.trailingRun.None?
    ensures s.ops == [Operation(Pass(context), Done(Applied)), Operation(Sweep, Done(Applied))]
  {
    s := ClearedMeanwhile(context);
    hide Reachable, Followers;
    Reached(s, ESetSession(context));
    s := SetSession(s, context);
    Reached(s, EOpEnded(0, Applied));
    s := OpEnded(s, 0, Applied);
    Reached(s, EFinishRun(0));
    s := FinishRun(s, 0);
    Reached(s, EOpStarted(1));
    s := OpStarted(s, 1);
    Reached(s, EOpEnded(1, Applied));
    s := OpEnded(s, 1, Applied);
  }

  // ---------------------------------------------------- what joins the queue

  /** What an event puts at the end of the serial queue: a sign-out its sweep, a retry itself;
      a call to run, or a new session, a pass for that session when no run is active and none
      trails; the end of the active run a pass for the run that trails. */
  ghost function Joins(s: Sync, e: Event): seq<Kind> {
    match e
    case EClearSession => [Sweep]
    case EReloadRetry => [ReloadRetry]
    case ERun => if s.session.Some? && s.activeRun.None? && s.trailingRun.None? then [Pass(s.session.value)] else []
    case ESetSession(context) =>
      if s.session != Some(context) && s.activeRun.None? && s.trailingRun.None? then [Pass(context)] else []
    case EFinishRun(i) =>
      if s.activeRun.Some? && s.activeRun.value.op == i && i < |s.ops| && s.ops[i].phase.Done? && s.trailingRun.Some?
      then [Pass(s.trailingRun.value.context)] else []
    case EOpStarted(_) => []
    case EOpEnded(_, _) => []
  }

  function Kinds(ops: seq<Operation>): (kinds: seq<Kind>)
    ensures |kinds| == |ops|
    ensures forall i | 0 <= i < |ops| :: kinds[i] == ops[i].kind
  {
    seq(|ops|, i requires 0 <= i < |ops| => ops[i].kind)
  }

  /** The serial queue only grows, and by exactly that. */
  lemma QueueGrows(s: Sync, e: Event)
    requires Bounded(s)
    ensures Kinds(Next(s, e).ops) == Kinds(s.ops) + Joins(s, e)
  {
    hide Followers;
  }

  /** Setting the session that is set changes nothing; setting another is setting it and then
      running. */
  lemma SessionSets(s: Sync, context: Context)
    requires Bounded(s)
    ensures var q := Next(s, ESetSession(context));
      && q.session == Some(context)
      && (s.session == Some(context) ==> q == s)
      && (s.session != Some(context) ==> q == Next(s.(session := Some(context)), ERun))
  {
    hide Run;
    RunKeepsSession(s.(session := Some(context)));
  }

  lemma RunKeepsSession(s: Sync)
    requires Bounded(s)
    ensures Run(s).0.session == s.session
  {
  }
}
