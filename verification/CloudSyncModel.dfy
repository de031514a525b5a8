/** The scheduler of CloudProviderSync (apps/server/src/cloud-provider-sync.ts): one
    active run, one trailing run, and a serial queue shared with sign-out sweeps and
    reload retries. */
module CloudSyncModel {
  import opened Wrappers

  /** sessionContextKey of a Den session: its base URL, organisation and token. */
  type Context = string

  datatype Outcome = Applied | Noop | Failed | NoSession

  datatype Kind = Pass(context: Context) | Sweep | ReloadRetry

  datatype Phase = Queued | Running | Done(outcome: Outcome)

  /** An operation handed to `enqueue`; it waits for the operation before it. */
  datatype Operation = Operation(kind: Kind, phase: Phase)

  /** A promise `run` hands out: that of a pass (by its place in the queue), or that of a
      trailing run (by number). */
  datatype Promise = OfPass(op: nat) | OfTrailing(n: nat)

  datatype ActiveRun = ActiveRun(context: Context, op: nat)

  datatype TrailingRun = TrailingRun(context: Context, n: nat)

  /** What the resolver of a trailing promise was given to: nobody yet, a pass, or the
      sign-out that resolved it. */
  datatype Fate = Open | Follows(op: nat) | SignedOut

  /** One call of a promise's resolve function. */
  datatype Settlement = Settlement(promise: Promise, outcome: Outcome)

  datatype Sync = Sync(
    session: Option<Context>,
    activeRun: Option<ActiveRun>,
    trailingRun: Option<TrailingRun>,
    ops: seq<Operation>,
    fates: seq<Fate>,
    log: seq<Settlement>)

  function Empty(): Sync {
    Sync(None, None, None, [], [], [])
  }

  function Enqueue(s: Sync, kind: Kind): Sync {
    s.(ops := s.ops + [Operation(kind, Queued)])
  }

  /** startRun: the pass joins the queue and becomes the active run. */
  function StartRun(s: Sync, context: Context): Sync {
    Enqueue(s, Pass(context)).(activeRun := Some(ActiveRun(context, |s.ops|)))
  }

  /** `promise.then(trailing.resolve)`: the trailing promise follows a pass. */
  function Follow(s: Sync, n: nat, op: nat): Sync
    requires n < |s.fates| && op < |s.ops|
  {
    s.(fates := s.fates[n := Follows(op)],
       log := if s.ops[op].phase.Done? then s.log + [Settlement(OfTrailing(n), s.ops[op].phase.outcome)] else s.log)
  }

  /** References held by the runs are inside the lists they index. */
  predicate Bounded(s: Sync) {
    && (s.activeRun.Some? ==> s.activeRun.value.op < |s.ops|)
    && (s.trailingRun.Some? ==> s.trailingRun.value.n < |s.fates|)
  }

  function Run(s: Sync): (Sync, Option<Promise>)
    requires Bounded(s)
  {
    if s.session.None? then (s, None)
    else
      var context := s.session.value;
      if s.activeRun.Some? && s.activeRun.value.context == context then
        var q := if s.trailingRun.Some? && s.trailingRun.value.context != context
                 then Follow(s, s.trailingRun.value.n, s.activeRun.value.op).(trailingRun := None) else s;
        (q, Some(OfPass(s.activeRun.value.op)))
      else if s.trailingRun.Some? then
        (s.(trailingRun := Some(s.trailingRun.value.(context := context))), Some(OfTrailing(s.trailingRun.value.n)))
      else if s.activeRun.Some? then
        (s.(trailingRun := Some(TrailingRun(context, |s.fates|)), fates := s.fates + [Open]), Some(OfTrailing(|s.fates|)))
      else
        (StartRun(s, context), Some(OfPass(|s.ops|)))
  }

  function SetSession(s: Sync, context: Context): Sync
    requires Bounded(s)
  {
    if s.session == Some(context) then s else Run(s.(session := Some(context))).0
  }

  function ClearSession(s: Sync): Sync
    requires Bounded(s)
  {
    var q := if s.trailingRun.None? then s
             else s.(trailingRun := None,
                     fates := s.fates[s.trailingRun.value.n := SignedOut],
                     log := s.log + [Settlement(OfTrailing(s.trailingRun.value.n), NoSession)]);
    Enqueue(q.(session := None), Sweep)
  }

  /** Operation `i` may start: the one before it has settled. */
  predicate Startable(s: Sync, i: nat) {
    i < |s.ops| && s.ops[i].phase == Queued && (i > 0 ==> s.ops[i - 1].phase.Done?)
  }

  function OpStarted(s: Sync, i: nat): Sync {
    if Startable(s, i) then s.(ops := s.ops[i := s.ops[i].(phase := Running)]) else s
  }

  /** The settlements of the trailing promises that follow pass `op`, by number. */
  function Followers(fates: seq<Fate>, op: nat, outcome: Outcome): seq<Settlement> {
    if fates == [] then []
    else
      var n := |fates| - 1;
      Followers(fates[..n], op, outcome) +
      (if fates[n] == Follows(op) then [Settlement(OfTrailing(n), outcome)] else [])
  }

  /** Operation `i` settles, and with a pass every promise that follows it. */
  function OpEnded(s: Sync, i: nat, outcome: Outcome): Sync {
    if !(i < |s.ops| && s.ops[i].phase == Running) then s
    else
      s.(ops := s.ops[i := s.ops[i].(phase := Done(outcome))],
         log := if s.ops[i].kind.Pass?
                then s.log + [Settlement(OfPass(i), outcome)] + Followers(s.fates, i, outcome) else s.log)
  }

  /** finishRun, called once the active pass has settled. */
  function FinishRun(s: Sync, i: nat): Sync
    requires Bounded(s)
  {
    if !(s.activeRun.Some? && s.activeRun.value.op == i && s.ops[i].phase.Done?) then s
    else
      var q := s.(activeRun := None, trailingRun := None);
      if s.trailingRun.None? then q
      else Follow(StartRun(q, s.trailingRun.value.context), s.trailingRun.value.n, |s.ops|)
  }

  datatype Event =
    | ESetSession(context: Context)
    | EClearSession
    | ERun
    | EReloadRetry
    | EOpStarted(op: nat)
    | EOpEnded(op: nat, outcome: Outcome)
    | EFinishRun(op: nat)

  function Next(s: Sync, e: Event): Sync
    requires Bounded(s)
  {
    match e
    case ESetSession(context) => SetSession(s, context)
    case EClearSession => ClearSession(s)
    case ERun => Run(s).0
    case EReloadRetry => Enqueue(s, ReloadRetry)
    case EOpStarted(op) => OpStarted(s, op)
    case EOpEnded(op, outcome) => OpEnded(s, op, outcome)
    case EFinishRun(op) => FinishRun(s, op)
  }

  lemma NextBounded(s: Sync, e: Event)
    requires Bounded(s)
    ensures Bounded(Next(s, e))
  {
  }

  function After(s: Sync, events: seq<Event>): (r: Sync)
    requires Bounded(s)
    ensures Bounded(r)
    decreases |events|
  {
    if events == [] then s
    else
      NextBounded(s, events[0]);
      After(Next(s, events[0]), events[1..])
  }
}
