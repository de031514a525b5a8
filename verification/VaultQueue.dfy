/** withVaultQueue and withVaultMutation (apps/server/src/local-managed-mcp.ts) with their
    awaits: a call loads the vault, changes it in memory and writes it back in three
    segments, between which other calls may arrive; a chain of promises in a map keeps them
    apart. */
module VaultQueue {
  import opened Wrappers
  import opened VaultModel
  import opened VaultTheorems

  datatype Work = Mutation(call: Call) | Reading

  /** Where a call is suspended: on the promise before it, with the loaded vault in hand, or
      with the changed one on its way to the file. */
  datatype Phase =
    | Waiting
    | Holding(loaded: Loaded)
    | Writing(vault: Vault, lastRecovery: Option<Recovery>)
    | Finished

  /** A call in the queue, and what it found around it since it started. */
  datatype Job = Job(work: Work, env: Option<Env>, phase: Phase)

  /** The store, the calls in order of arrival, and which of the derived promises that the
      map went through have settled. The promise of a call settles after the one before it
      and the end of the call. */
  datatype Queue = Queue(store: Store, jobs: seq<Job>, settled: set<nat>)

  datatype Event = Enter(work: Work) | Start(job: nat, env: Env) | Change(job: nat) | Write(job: nat) | Settle(job: nat)

  predicate Free(q: Queue, i: nat) {
    i < |q.jobs| && (i > 0 ==> i - 1 in q.settled)
  }

  function At(q: Queue, i: nat, phase: Phase): Queue
    requires i < |q.jobs|
  {
    q.(jobs := q.jobs[i := q.jobs[i].(phase := phase)])
  }

  /** loadVaultLocked, once the promise before the call has settled. A call that only reads,
      or whose load fails, is over. */
  function Started(q: Queue, i: nat, env: Env): Queue {
    if !(Free(q, i) && q.jobs[i].phase == Waiting) then q
    else
      var (file, loaded) := Load(q.store.file, env);
      var over := q.jobs[i].work.Reading? || loaded.Err?;
      var r := q.(jobs := q.jobs[i := q.jobs[i].(env := Some(env))],
                  store := q.store.(file := file,
                                    drawn := q.store.drawn + if over && q.jobs[i].work.Mutation? then 1 else 0));
      At(r, i, if over then Finished else Holding(loaded.value))
  }

  /** The mutation of the vault in hand. */
  function Changed(mac: Mac, q: Queue, i: nat): Queue {
    if !(i < |q.jobs| && q.jobs[i].phase.Holding? && q.jobs[i].work.Mutation? && q.jobs[i].env.Some?) then q
    else
      var held := q.jobs[i].phase.loaded;
      var change := Mutate(mac, held.vault, q.jobs[i].work.call, q.jobs[i].env.value, q.store.drawn);
      At(q, i, if change.Err? || change.value.None? then Finished else Writing(change.value.value, held.lastRecovery))
      .(store := q.store.(drawn := q.store.drawn + 1))
  }

  /** writeVault: it fails without the key or the file system. */
  function Wrote(q: Queue, i: nat): Queue {
    if !(i < |q.jobs| && q.jobs[i].phase.Writing? && q.jobs[i].work.Mutation? && q.jobs[i].env.Some?) then q
    else
      var job := q.jobs[i];
      var env, call := job.env.value, job.work.call;
      var r := At(q, i, Finished);
      if env.key.None? || !env.writes then r
      else r.(store := q.store.(
                file := Some(Written(env.key.value, job.phase.vault, job.phase.lastRecovery)),
                log := if call.op.SaveCredential? then q.store.log + [Saved(call.workspaceId, call.name, call.op.source)]
                       else q.store.log))
  }

  function Next(mac: Mac, q: Queue, e: Event): Queue {
    match e
    case Enter(work) => q.(jobs := q.jobs + [Job(work, None, Waiting)])
    case Start(i, env) => Started(q, i, env)
    case Change(i) => Changed(mac, q, i)
    case Write(i) => Wrote(q, i)
    case Settle(i) => if Free(q, i) && q.jobs[i].phase.Finished? then q.(settled := q.settled + {i}) else q
  }

  function After(mac: Mac, q: Queue, events: seq<Event>): Queue
    decreases |events|
  {
    if events == [] then q else After(mac, Next(mac, q, events[0]), events[1..])
  }

  function Empty(): Queue {
    Queue(Store(None, 0, []), [], {})
  }

  // One call after another

  /** A call all at once. */
  function Step(mac: Mac, s: Store, work: Work, env: Env): Store {
    match work
    case Mutation(call) => VaultModel.Next(mac, s, call, env)
    case Reading => s.(file := Load(s.file, env).0)
  }

  /** The first `n` calls, each all at once. */
  function InTurn(mac: Mac, jobs: seq<Job>, n: nat): Store
    requires n <= |jobs|
  {
    if n == 0 then Store(None, 0, [])
    else if jobs[n - 1].env.None? then InTurn(mac, jobs, n - 1)
    else Step(mac, InTurn(mac, jobs, n - 1), jobs[n - 1].work, jobs[n - 1].env.value)
  }

  lemma {:induction false} InTurnStays(mac: Mac, jobs: seq<Job>, other: seq<Job>, n: nat)
    requires n <= |jobs| && n <= |other|
    requires forall i | 0 <= i < n :: other[i].work == jobs[i].work && other[i].env == jobs[i].env
    ensures InTurn(mac, other, n) == InTurn(mac, jobs, n)
  {
    hide Step;
    if n > 0 { InTurnStays(mac, jobs, other, n - 1); }
  }

  /** A call's place among the others: everything before it is finished, everything after it
      has not started, and the store is as the calls before it left it, but for what this one
      has done so far. */
  ghost predicate Turn(mac: Mac, q: Queue, n: nat) {
    && n <= |q.jobs|
    && (forall i | 0 <= i < n :: q.jobs[i].phase.Finished? && q.jobs[i].env.Some?)
    && (forall i | n < i < |q.jobs| :: q.jobs[i].phase == Waiting)
    && (forall i | i in q.settled :: i < n)
    && (n < |q.jobs| ==> !q.jobs[n].phase.Finished? && (q.jobs[n].phase != Waiting ==> q.jobs[n].env.Some?))
    && Midway(mac, InTurn(mac, q.jobs, n), q.store, if n < |q.jobs| then Some(q.jobs[n]) else None)
  }

  /** What a call under way has made of the store it found. */
  ghost predicate Midway(mac: Mac, s: Store, now: Store, job: Option<Job>) {
    if job.None? || job.value.phase == Waiting then now == s
    else if job.value.env.None? || job.value.work.Reading? then false
    else
      var env := job.value.env.value;
      var (file, loaded) := Load(s.file, env);
      && loaded.Ok?
      && match job.value.phase
         case Holding(held) => held == loaded.value && now == s.(file := file)
         case Writing(vault, lastRecovery) =>
           && now == s.(file := file, drawn := s.drawn + 1) && lastRecovery == loaded.value.lastRecovery
           && Mutate(mac, loaded.value.vault, job.value.work.call, env, s.drawn) == Ok(Some(vault))
         case _ => false
  }

  lemma EnterKeeps(mac: Mac, q: Queue, n: nat, work: Work)
    requires Turn(mac, q, n)
    ensures Turn(mac, Next(mac, q, Enter(work)), n)
  {
    InTurnStays(mac, q.jobs, q.jobs + [Job(work, None, Waiting)], n);
    hide InTurn;
  }

  /** A call that is over: the store is as if it had run all at once, and the next one is
      due. */
  lemma TurnOver(mac: Mac, q: Queue, r: Queue, n: nat)
    requires Turn(mac, q, n) && n < |q.jobs| && |r.jobs| == |q.jobs| && r.settled == q.settled
    requires forall i | 0 <= i < |q.jobs| && i != n :: r.jobs[i] == q.jobs[i]
    requires r.jobs[n].work == q.jobs[n].work && r.jobs[n].phase.Finished? && r.jobs[n].env.Some?
    requires r.store == Step(mac, InTurn(mac, q.jobs, n), r.jobs[n].work, r.jobs[n].env.value)
    ensures Turn(mac, r, n + 1)
  {
    InTurnStays(mac, q.jobs, r.jobs, n);
    hide Step;
    assert InTurn(mac, r.jobs, n + 1) == Step(mac, InTurn(mac, r.jobs, n), r.jobs[n].work, r.jobs[n].env.value);
  }

  lemma TurnGoes(mac: Mac, q: Queue, r: Queue, n: nat)
    requires Turn(mac, q, n) && n < |q.jobs| && |r.jobs| == |q.jobs| && r.settled == q.settled
    requires forall i | 0 <= i < |q.jobs| && i != n :: r.jobs[i] == q.jobs[i]
    requires !r.jobs[n].phase.Finished? && r.jobs[n].env.Some?
    requires Midway(mac, InTurn(mac, q.jobs, n), r.store, Some(r.jobs[n]))
    ensures Turn(mac, r, n)
  {
    InTurnStays(mac, q.jobs, r.jobs, n);
    hide Midway, InTurn;
  }

  lemma StartKeeps(mac: Mac, q: Queue, n: nat, i: nat, env: Env)
    requires Turn(mac, q, n)
    ensures Turn(mac, Started(q, i, env), n) || Turn(mac, Started(q, i, env), n + 1)
  {
    if Free(q, i) && q.jobs[i].phase == Waiting {
      assert i == n;
      var s, r := InTurn(mac, q.jobs, n), Started(q, i, env);
      assert q.store == s;
      hide InTurn, Load, Mutate, Turn;
      if r.jobs[n].phase.Finished? {
        TurnOver(mac, q, r, n);
      } else {
        TurnGoes(mac, q, r, n);
      }
    }
  }

  lemma ChangeKeeps(mac: Mac, q: Queue, n: nat, i: nat)
    requires Turn(mac, q, n)
    ensures Turn(mac, Changed(mac, q, i), n) || Turn(mac, Changed(mac, q, i), n + 1)
  {
    if i < |q.jobs| && q.jobs[i].phase.Holding? && q.jobs[i].work.Mutation? && q.jobs[i].env.Some? {
      assert i == n;
      var r := Changed(mac, q, i);
      assert Midway(mac, InTurn(mac, q.jobs, n), q.store, Some(q.jobs[n]));
      hide InTurn, Load, Mutate, Turn;
      if r.jobs[n].phase.Finished? {
        TurnOver(mac, q, r, n);
      } else {
        TurnGoes(mac, q, r, n);
      }
    }
  }

  lemma WriteKeeps(mac: Mac, q: Queue, n: nat, i: nat)
    requires Turn(mac, q, n)
    ensures Turn(mac, Wrote(q, i), n) || Turn(mac, Wrote(q, i), n + 1)
  {
    if i < |q.jobs| && q.jobs[i].phase.Writing? && q.jobs[i].work.Mutation? && q.jobs[i].env.Some? {
      assert i == n;
      assert Midway(mac, InTurn(mac, q.jobs, n), q.store, Some(q.jobs[n]));
      hide InTurn, Load, Mutate, Turn, IndexOf;
      TurnOver(mac, q, Wrote(q, i), n);
    }
  }

  lemma StepTurns(mac: Mac, q: Queue, n: nat, e: Event) returns (m: nat)
    requires Turn(mac, q, n)
    ensures Turn(mac, Next(mac, q, e), m)
  {
    hide Turn, Started, Changed, Wrote;
    match e
    case Enter(work) => EnterKeeps(mac, q, n, work); m := n;
    case Start(i, env) => StartKeeps(mac, q, n, i, env); m := if Turn(mac, Started(q, i, env), n) then n else n + 1;
    case Change(i) => ChangeKeeps(mac, q, n, i); m := if Turn(mac, Changed(mac, q, i), n) then n else n + 1;
    case Write(i) => WriteKeeps(mac, q, n, i); m := if Turn(mac, Wrote(q, i), n) then n else n + 1;
    case Settle(i) => SettleKeeps(mac, q, n, i); m := n;
  }

  lemma SettleKeeps(mac: Mac, q: Queue, n: nat, i: nat)
    requires Turn(mac, q, n)
    ensures Turn(mac, Next(mac, q, Settle(i)), n)
  {
    hide InTurn, Midway;
  }

  lemma {:induction false} RunTurns(mac: Mac, q: Queue, n: nat, events: seq<Event>) returns (m: nat)
    requires Turn(mac, q, n)
    ensures Turn(mac, After(mac, q, events), m)
    decreases |events|
  {
    m := n;
    if events != [] {
      m := StepTurns(mac, q, n, events[0]);
      hide Turn, Next;
      m := RunTurns(mac, Next(mac, q, events[0]), m, events[1..]);
    }
  }

  /** Over every interleaving of arrivals, loads, changes and writes, calls take effect one
      after another, in order of arrival: at every moment some calls are finished, the next
      one may be under way, the rest have not started, and the store is as if the finished
      ones had run all at once, but for what the one under way has done. */
  lemma CallsInTurn(mac: Mac, events: seq<Event>) returns (n: nat)
    ensures Turn(mac, After(mac, Empty(), events), n)
  {
    n := RunTurns(mac, Empty(), 0, events);
  }

  /** Nothing is stuck: the call whose turn it is can move, or the promise it waits for can. */
  lemma QueueMoves(mac: Mac, events: seq<Event>, env: Env)
    requires exists i :: 0 <= i < |After(mac, Empty(), events).jobs| && !After(mac, Empty(), events).jobs[i].phase.Finished?
    ensures exists e: Event :: !e.Enter? && Next(mac, After(mac, Empty(), events), e) != After(mac, Empty(), events)
  {
    var q := After(mac, Empty(), events);
    var n := CallsInTurn(mac, events);
    TurnMoves(mac, q, n, env);
  }

  lemma {:induction false} FirstUnsettled(q: Queue, k: nat) returns (j: nat)
    requires k !in q.settled
    ensures j <= k && j !in q.settled && (j > 0 ==> j - 1 in q.settled)
  {
    j := k;
    if k > 0 && k - 1 !in q.settled { j := FirstUnsettled(q, k - 1); }
  }

  lemma TurnMoves(mac: Mac, q: Queue, n: nat, env: Env)
    requires Turn(mac, q, n) && exists i :: 0 <= i < |q.jobs| && !q.jobs[i].phase.Finished?
    ensures exists e: Event :: !e.Enter? && Next(mac, q, e) != q
  {
    var job := q.jobs[n];
    hide InTurn, Load, Mutate;
    match job.phase
    case Waiting =>
      if !Free(q, n) {
        var j := FirstUnsettled(q, n - 1);
        assert j in Next(mac, q, Settle(j)).settled;
      } else {
        assert Next(mac, q, Start(n, env)).jobs[n].phase != Waiting;
      }
    case Holding(_) => assert Next(mac, q, Change(n)).jobs[n].phase != job.phase;
    case Writing(_, _) => assert Next(mac, q, Write(n)).jobs[n].phase != job.phase;
  }

  lemma {:induction false} InTurnUsedOnce(mac: Mac, jobs: seq<Job>, n: nat)
    requires n <= |jobs|
    ensures CasInv(InTurn(mac, jobs, n))
  {
    hide VaultModel.Next, CasInv, Load;
    if n == 0 {
      assert CasInv(Store(None, 0, [])) by { NothingUsed(); }
    } else {
      InTurnUsedOnce(mac, jobs, n - 1);
      if jobs[n - 1].env.Some? {
        var s, env := InTurn(mac, jobs, n - 1), jobs[n - 1].env.value;
        match jobs[n - 1].work
        case Mutation(call) => CasStep(mac, s, call, env);
        case Reading => CasLoad(s, env);
      }
    }
  }

  lemma NothingUsed()
    ensures CasInv(Store(None, 0, []))
  {
  }

  lemma CasLoad(s: Store, env: Env)
    requires CasInv(s)
    ensures CasInv(s.(file := Load(s.file, env).0))
  {
    LoadWithin(s.file, env);
    WithinKeeps(VaultOf(Load(s.file, env).0), VaultOf(s.file), s.log, s.drawn, s.drawn);
    hide Load, RevisionsInv, AllUsedUp, UsedOnce, Within;
  }

  /** So whatever overlaps, each authorization transaction is consumed by at most one
      successful save, and of all refresh saves that expect one revision at most one
      succeeds. */
  lemma EachUsedOnceQueued(mac: Mac, events: seq<Event>)
    ensures UsedOnce(After(mac, Empty(), events).store.log)
  {
    var q := After(mac, Empty(), events);
    var n := CallsInTurn(mac, events);
    InTurnUsedOnce(mac, q.jobs, n);
    hide After, InTurn, UsedOnce, RevisionsInv, AllUsedUp, Load, Mutate;
    assert q.store.log == InTurn(mac, q.jobs, n).log;
  }
}
