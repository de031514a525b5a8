# OpenWork server controllers, in Dafny

A model of the concurrent controllers and of some of the stored state of the OpenWork
server (`apps/server/src`), with proofs of what they promise. The server is single-threaded
JavaScript: code between two awaits runs without interruption. Each controller is modelled
twice: as a state machine with one event per await-free segment, about which the theorems
are proved over all interleavings; and as a class whose methods, one per segment, change the
same state in place, each proved to move it exactly as the state machine does. What an
awaited hook answers (a spawn, a busy probe, a session list, the clock, a failure) comes
with the event.

- **Engine pool** (`EnginePool*.dfy`). Blue/green rollover of engine generations.
  `EnginePoolModel` is the state machine, `EnginePoolCode` the class, `EnginePoolFrames` what
  each step leaves alone, `EnginePoolInvariants` what every step keeps, `EnginePoolLifecycle`
  the life of a generation, `EnginePoolTheorems` routing, events and coalescing over whole
  runs, `EnginePoolDrains` the end of drains and the record of running sessions,
  `EnginePoolOverlaps` roles over runs in which anything overlaps, `EnginePoolDisposal` what a
  disposal achieves, `EnginePoolAftermath` what is left when it is through, `EnginePoolWakes`
  runs that wait for a drain, `EnginePoolPins` where every request goes, `EnginePoolHandover`
  what a rollover hands to the engine it demotes, `EnginePoolOutcomes` how a whole rollover ends,
  `EnginePoolEndings` what polls, retirements, recoveries and disposals leave, `EnginePoolLimits`
  a trace from startup for each hypothesis and exact conditions for the steps that break without it.
- **Schedulers** (`WorkQueue*.dfy`, `CloudSync*.dfy`, `DirectoryFence.dfy`). The
  latest-trailing work queue, the active/trailing runs and serial queue of the cloud provider
  sync, the per-directory lock built from a promise chain.
- **Cloud provider writes** (`CloudPrepare.dfy`, `CloudEntries.dfy`, `CloudApply*.dfy`,
  `CloudFaults.dfy`, `StableJson.dfy`). What is prepared, what one pass and a sign-out write,
  failing anywhere, and how configurations are compared.
- **Managed MCP vault** (`Vault*.dfy`). The encrypted vault beside its plaintext index:
  recovery from key loss, listings, compare-and-set credentials; `VaultCalls` says what each
  call changes and what it takes away for good, `VaultQueue` has the awaits of its calls and the
  queue that keeps them apart.
- **URL guard** (`AddressText*.dfy`, `AddressVerdict.dfy`). IP address text and which
  addresses are refused.
- **Seeded ids** (`AscendingIds.dfy`), **delivery state** (`DeliveryStore.dfy`), **desktop
  cloud diff** (`DesktopDiff*.dfy`).
- `Numerals.dfy`, `Strings.dfy`, `Wrappers.dfy` hold what several of them share.

## Hypotheses

- Ownership, routing, events and drains of the engine pool (`EnginePoolInvariants.SerialRun`):
  no rollover is in flight while a dead-primary recovery or a disposal is, and no poll comes
  back after its generation was retired. The code enforces neither; `EnginePoolLimits` has a
  trace from startup for each. `OnePrimary` assumes only that each promotion is guarded, which
  is exact (`OneOfEach`); `PendingHasRun`, `SlotMergesAll`, `WokenFindsDrain`,
  `DisposedServesIff`, `DisposalCompleteIff` and `DisposalEmptiesIff` assume nothing.
- Fresh UUIDs are counters: a generation's id, a credential's or authorization's revision.
- Sealing a vault is a value that opens only with its key; the keyed hash of an authorization
  id is any function.
- `Number` reads one to three decimal digits below 256 as their value
  (`AddressText.ReadsDecimals`); nothing else is assumed of it.
- `isIP` takes nothing for an IPv4 address but four decimal octets, and nothing without a zone for
  an IPv6 address but a text form of RFC 4291 (`AddressVerdict.Classifies`, for `GuardVerdict` only).
- A sort of providers keeps the providers it is given (`CloudPrepare.Sorts`).
- Merging a provider update replaces its keys and deletes its nulls; the env store writes a
  batch or nothing.

## What the proofs found

- A parked rollover does not wait for the drain to finish, as the comment at
  `apps/server/src/engine-pool.ts:561-562` says: the finally block (508-516) picks the slot up
  at once, and while the answers stay the same the run parks again, any number of times
  (`EnginePoolLimits.ParkRepeats`). The resume branch of retire (794-798) never fires
  (`EnginePoolTheorems.PendingHasRun`).
- Parking overwrites what was merged into the slot meanwhile (`EnginePoolLimits.ParkedManualLost`,
  `ParkDropsMerged`).
- A recovery that overlaps a rollover can leave two primaries (`EnginePoolLimits.OverlappingRecovery`).
  At most one engine is ever primary exactly when every flip finds no primary but the one its
  run captured, and every replacement none (`EnginePoolOverlaps.OneOfEach`).
- A disposal can leak an engine that serves on, with nothing left to retire or close, exactly when
  it meets a rollover that still prepares, probes or spawns, or a recovery that has yet to list
  its replacement (`EnginePoolAftermath.DisposalEmptiesIff`): neither looks at `disposed` again
  (`EnginePoolLimits.DisposedDuringSpawn`). A run whose standby is listed already, or a listed
  replacement, flips too, but to an engine the disposal retires: the list then holds one that is
  not dead only until its close comes back (`EnginePoolDisposal.DisposalCompleteIff` judges the
  states before).
- The close of any retired engine wakes every waiter, even while another engine drains
  (`EnginePoolLimits.SpuriousWake`): the woken run finds none draining exactly when every
  other engine demoted while that close was pending has been retired (`EnginePoolWakes.WokenFindsDrain`).
- A trailing pass is promoted for the session then set, but starts without a look at the
  session: it may run for one that was cleared or replaced while it waited in the queue
  (`CloudSyncTheorems.StartsSignedOut`), and does exactly when none is set or a trailing run
  waits (`StartsForSession`).
- Signing out and in again with the same context during an active pass schedules nothing
  behind the sweep (`CloudSyncTheorems.SignInSchedulesBehindSweep`).
- That a pass reaches its desired map and repeats as a no-op hangs on the ids: in the model, whose
  prepared providers may have any, both hold exactly when every desired id is a managed key
  (`CloudApply.PassReachesDesired`, `SecondPassNoop`), and a provider under another key may stay
  after a sign-out (`SignOutLeaves`). `parseProvider` lets no other id in
  (`apps/server/src/cloud-provider-sync.ts:246`), so whatever the cloud answers a pass settles
  (`CloudPrepare.FetchedPassSettles`) and a sign-out leaves nothing (`CloudPrepare.SignedOutClean`).
- A provider whose env names are declared with blanks around them is always skipped
  (`CloudPrepare.UntrimmedNamesSkip`).
- A sweep that throws forgets which env keys the cloud owns; a key then stays for good exactly
  when the sweep threw before it deleted that key (`CloudApply.FailedSweepForgets`).
- A vault recovery whose write fails leaves no file behind (`VaultTheorems.RecoveryLoses`).
- Beyond the text forms of RFC 4291, `parseIpv6Words` reads dotted tails that are not decimal,
  such as `0x7f.0.0.1` (`AddressTextTheorems.HexOctetParses`). No such text reaches it through the
  exported guard, which asks `isIP` first (`AddressVerdict.GuardVerdict`).
- A change key of the desktop diff is ambiguous, although no id contains a pair of colons,
  exactly when a part of it ends in a colon and the next does not start with one, or the other
  way round (`DesktopDiffTheorems.KeyAmbiguousIff`). The pending changes may then hold a key twice,
  or forget a change at a sync that says nothing of its thing (`DuplicatePends`, `CollisionForgets`).

## Model

| member | source | states |
|---|---|---|
| `EnginePoolOverlaps.OnePrimary` | apps/server/src/engine-pool.ts:334-721 | in every run from startup whose promotions are guarded (a flip finds no primary but the one its run captured, a replacement none), whatever else overlaps: exactly one generation is primary while one serves, and none from when a recovery or a disposal takes it away until the next promotion; until a disposal begins, a config and local workspaces that pointed at the first engine point at the current primary |
| `EnginePoolOverlaps.OneOfEach` | apps/server/src/engine-pool.ts:334-721 | in every run from startup, whatever overlaps: at most one generation drains; a generation starts only as the standby of the rollover or recovery in flight; at most one is ever primary exactly when every promotion is guarded |
| `EnginePoolOverlaps.FlipKeepsOne` | apps/server/src/engine-pool.ts:671-676 | in any pool a run can reach, a flip to a listed standby leaves one primary at most exactly when every primary of the list is the one its run captured |
| `EnginePoolOverlaps.ReplacementKeepsOne` | apps/server/src/engine-pool.ts:897-911 | the flip to a listed replacement leaves one primary at most exactly when nobody is primary |
| `EnginePoolOverlaps.SerialGuarded` | apps/server/src/engine-pool.ts:858-912 | in a run in which no rollover overlaps a recovery or a disposal every promotion is guarded |
| `EnginePoolTheorems.StepKeeps` | apps/server/src/engine-pool.ts:475-912 | each of the 27 await-free segments keeps the pool's invariant: roles, what suspended continuations remember, ownership of sessions and prompts by routable engines only, deadlines of draining engines, a waker for every sleeping run |
| `EnginePoolTheorems.EveryEventOnce` | apps/server/src/engine-pool.ts:435-453 | in every run, while one engine drains beside the primary, each event, whatever session and request ids it holds, is forwarded by exactly one of the two streams |
| `EnginePoolTheorems.ForwardsOnce` | apps/server/src/engine-pool.ts:435-453 | the same from the invariant, and in whichever order the two streams deliver the event, although the draining engine's verdict pins requests |
| `EnginePoolTheorems.OwnersDrain` | apps/server/src/engine-pool.ts:671-685 | while an engine drains, it is the only owner of sessions and prompts and the only one with recorded activity |
| `EnginePoolTheorems.RouteTargets` | apps/server/src/engine-pool.ts:386-416 | a route exists exactly when there is a primary; its target is a routable engine of the list; a fallback is offered only on a legacy reply whose target is the primary, and is the draining engine |
| `EnginePoolTheorems.RunningSessionsRoute` | apps/server/src/engine-pool.ts:386-416 | in every run, all requests of a session recorded running on an engine go to that engine, which owns the session and drains, and change nothing |
| `EnginePoolTheorems.RunningSessionStays` | apps/server/src/engine-pool.ts:386-416 | the same from the invariant |
| `EnginePoolPins.RequestRoutes` | apps/server/src/engine-pool.ts:386-416 | while an engine drains beside the primary, a request goes to the draining engine, with no fallback, exactly when it names a session of that engine (unless it starts a turn in one that is not running there) or a prompt pinned to it; every other goes to the primary, with the draining engine as the fallback of exactly the legacy replies; nothing changes but that a session in which such a turn starts loses its owner |
| `EnginePoolPins.AloneRoutes` | apps/server/src/engine-pool.ts:386-416 | while nothing drains every request goes to the primary, with no fallback |
| `EnginePoolPins.ForwardPins` | apps/server/src/engine-pool.ts:435-446 | an event pins exactly the requests it carries, to its engine, and exactly when that engine drains and the event is of one of its sessions |
| `EnginePoolPins.PinnedWhileDraining` | apps/server/src/engine-pool.ts:404-408 | in every run, a prompt pinned to an engine is pinned to it exactly as long as the engine drains |
| `EnginePoolPins.PinnedReplyRoutes` | apps/server/src/engine-pool.ts:404-408 | the reply to a pinned prompt goes to the engine that asked, with no fallback, whatever session the path names |
| `EnginePoolPins.ForwardedPromptRoutes` | apps/server/src/engine-pool.ts:404-446 | in every run from startup, the reply to a request that an event of a draining engine carried, about a session of that engine, goes to that engine as long as it drains |
| `EnginePoolDrains.ActiveWhileReported` | apps/server/src/engine-pool.ts:1050-1057 | in every run, as long as every poll of its engine reports a session recorded running, the record lasts exactly as long as the engine drains: nothing but such a poll or the engine's retirement forgets it |
| `EnginePoolDrains.ReportedSessionRoutes` | apps/server/src/engine-pool.ts:386-416 | and so long all requests of the session go to that engine and change nothing |
| `EnginePoolHandover.RolloverHandsOver` | apps/server/src/engine-pool.ts:647-685 | in every run, whatever happens from the answer that names the running sessions of the captured primary through its four prompt lists to the flip: that engine then drains until now plus the timeout, under its first poll, with exactly those sessions recorded running; it owns exactly these and the listed sessions in which no turn was started since; exactly the listed prompts are pinned, to it; and the standby is the primary the config points at |
| `EnginePoolHandover.HandedOverRoutes` | apps/server/src/engine-pool.ts:386-416 | after such a flip, requests of a session that was running go to that engine as long as its polls report the session, and replies to a listed prompt as long as it drains |
| `EnginePoolHandover.RolloverKeepsSessions` | apps/server/src/engine-pool.ts:386-721 | both, in every run from startup |
| `EnginePoolOutcomes.RolloverEnds` | apps/server/src/engine-pool.ts:519-669 | every rollover by itself, in any list with one primary at most, ends as it is answered: with nothing done when it is not manual and the primary carries the fingerprint; with a reload in place of an idle engine, which takes the fingerprint if the reload succeeded; waiting (forced) or parked while another engine drains; parked when it is neither manual nor forced and the interval has not passed; with the list as it was when the standby fails to start or to get healthy; and else with the standby as primary, built from the fingerprint, the config and local workspaces on it, and the old primary draining with all that was listed; nothing else changes |
| `EnginePoolHandover.RunMoves` | apps/server/src/engine-pool.ts:475-721 | whatever overlaps, a run in flight moves only by the segment it waits for |
| `EnginePoolOutcomes.FirstRollover` | apps/server/src/engine-pool.ts:334-352 | a first rollover, neither manual nor forced, does nothing while the config is the one the first engine was built from, and parks when that engine is busy and the interval since startup has not passed |
| `EnginePoolOutcomes.ReloadReaches` | apps/server/src/engine-pool.ts:542-549 | in every run, whatever happens while an idle engine reloads: once the reload has succeeded that engine is still the primary and carries the fingerprint of the run; if it failed, nothing but the run changes |
| `EnginePoolTheorems.IdlePromptMoves` | apps/server/src/engine-pool.ts:386-416 | a prompt to a session that is owned but not running goes to the primary and gives up the ownership |
| `EnginePoolTheorems.OwnershipGrows` | apps/server/src/engine-pool.ts:671-685 | only three segments hand a session to an engine: a poll of that engine that reports it running, and the listing and flip of the rollover that demotes that engine |
| `EnginePoolTheorems.MovedSessionReturns` | apps/server/src/engine-pool.ts:1050-1057 | in every run, a session that left a draining engine is owned by it again only after a later poll of that engine reported it running |
| `EnginePoolTheorems.PendingHasRun` | apps/server/src/engine-pool.ts:475-517 | in every run, whatever overlaps, a pending rollover has a run in flight; so the resume branch of retire (lines 794-798) never fires |
| `EnginePoolTheorems.SlotMergesAll` | apps/server/src/engine-pool.ts:491-499 | between parks, the pending slot carries the latest reason and workspace, and each flag exactly when some merged request (or the slot before) carried it |
| `EnginePoolTheorems.SpawnStarts` | apps/server/src/engine-pool.ts:551-595 | in every step, a rollover comes to its spawn only while no engine drains, at the time it records, and, unless its request is manual or forced, no sooner than the minimum interval after the last spawn; no other segment starts one |
| `EnginePoolLifecycle.StepLives` | apps/server/src/engine-pool.ts:583-721 | a generation starts, serves, drains and dies in that order; a draining one keeps its endpoint and deadline until it is retired |
| `EnginePoolLifecycle.StepServes` | apps/server/src/engine-pool.ts:671-696 | a flip puts an engine in service with the config on it; only the close of a dead primary and a disposal take service away |
| `EnginePoolDrains.DrainEnds` | apps/server/src/engine-pool.ts:727-754 | whatever the sessions do, from the first completed poll that finds nothing running or comes back at or after the deadline, a draining engine is retired or being aborted by the tick that then retires it |
| `EnginePoolDrains.RunEnding` | apps/server/src/engine-pool.ts:742-746 | that state is never left, and ends in retirement once the aborts are done |
| `EnginePoolEndings.DrainLasts` | apps/server/src/engine-pool.ts:727-754 | in every run without a disposal, an engine drains on, with no session aborted, as long as its polls come back before its deadline and find something running |
| `EnginePoolEndings.PollOutcome` | apps/server/src/engine-pool.ts:729-748 | a poll of a draining engine that finds nothing running retires it: dead, closing, with no session, prompt or activity left to anyone; else the engine owns exactly the sessions reported, which are its recorded activity, keeps its prompts, and is aborted exactly when its deadline has come |
| `EnginePoolEndings.AbortOutcome` | apps/server/src/engine-pool.ts:742-746 | the end of the aborts retires a draining engine in the same way |
| `EnginePoolEndings.TickPolls` | apps/server/src/engine-pool.ts:729-731 | a tick polls its engine exactly when the engine drains |
| `EnginePoolDrains.SleeperHasWaker` | apps/server/src/engine-pool.ts:551-560 | a run asleep in waitForDrain has an engine whose retirement wakes it: one that drains with a deadline, or one that is being closed |
| `EnginePoolDrains.CloseWakes` | apps/server/src/engine-pool.ts:789-791 | the close of any retired engine wakes the sleeper, and leaves the number of draining engines as it was |
| `EnginePoolWakes.SleeperResumes` | apps/server/src/engine-pool.ts:551-560 | in every run from a reachable state in which a run sleeps in waitForDrain and an engine drains, the run has been resumed once that engine's deciding poll came back, the aborts it started are done and the engine's close came back |
| `EnginePoolWakes.SleeperWakesClean` | apps/server/src/engine-pool.ts:839-844 | a run that sleeps until the engine it waits for is closed is resumed with no engine draining |
| `EnginePoolWakes.WokenFindsDrain` | apps/server/src/engine-pool.ts:789-791 | in every run, whatever overlaps, the run woken by the close of a retired engine finds no engine draining exactly when every other engine demoted while that close was pending has been retired since |
| `EnginePoolEndings.WaiterStartsOver` | apps/server/src/engine-pool.ts:551-560 | whatever overlaps, a run that waits for a drain goes on only when a close has woken it and it is resumed, and then starts over with its own request, or stops when the pool is disposed |
| `EnginePoolEndings.SettleRunsSlot` | apps/server/src/engine-pool.ts:506-516 | a run that is over leaves, and exactly what is in the slot runs next, unless the pool is disposed |
| `EnginePoolEndings.RecoveryEnds` | apps/server/src/engine-pool.ts:858-912 | every recovery by itself ends as it is answered: with nothing changed when the old primary does not close; with that primary gone when the replacement does not start or is not healthy; else with the replacement in its place, primary, built from the fingerprint, and the config and local workspaces on it |
| `EnginePoolEndings.DisposalLine` | apps/server/src/engine-pool.ts:819-822 | a first disposal lines up every engine of the list exactly once, the draining ones before the others |
| `EnginePoolDrains.DisjointTicksAreFresh` | apps/server/src/engine-pool.ts:727-754 | in a run in which the ticks of one engine overlap neither each other nor its retirement by a disposal, every poll comes back to an engine that still drains: the freshness the safety theorems assume |
| `EnginePoolLimits.StandbyFlips` | apps/server/src/engine-pool.ts:583-664 | from every idle state with the primary last in the list, a forced rollover whose hooks succeed and find nothing running reaches the state in which the standby serves and the old engine drains under its first poll |
| `EnginePoolLimits.OverlappingRecovery` | apps/server/src/engine-pool.ts:858-912 | a trace from startup: a recovery overlapping a rollover leaves two primaries |
| `EnginePoolLimits.DisposedDuringSpawn` | apps/server/src/engine-pool.ts:803-833 | a trace from startup: a disposal during a spawn ends with a serving engine in a disposed pool that has nothing left to retire |
| `EnginePoolDisposal.DisposalCompleteIff` | apps/server/src/engine-pool.ts:803-833 | in every run from startup, whatever overlaps: the first disposal leaves no engine but dead ones in any state in which everything in line is retired (also before the pending closes come back), and ever after, exactly when no recovery is in flight and no rollover but one that waits for a drain, reloads in place or is over |
| `EnginePoolDisposal.DisposedServesIff` | apps/server/src/engine-pool.ts:803-833 | in every run from startup, whatever overlaps: a disposed pool may come to a state in which an engine serves and nothing is left to retire (if only until a pending close comes back) exactly when a serving engine is not in line to be retired, the rollover in flight has not spawned yet or has its standby listed, or a recovery in flight has not flipped to a replacement that left the list |
| `EnginePoolAftermath.DisposalEmptiesIff` | apps/server/src/engine-pool.ts:803-833 | in every run from startup, whatever overlaps: once a disposal has retired everything in line and every close has come back, the list is empty, whatever else happens, exactly when no rollover that still prepares, probes or spawns and no recovery that has yet to list its replacement was in flight as the disposal began; else some run ends with an engine in service that nothing is left to retire or close |
| `EnginePoolDisposal.DisposalEnds` | apps/server/src/engine-pool.ts:803-833 | a disposal, the first or a later one, that finds no recovery and only such a rollover in flight leaves nothing but dead engines, whatever it found in the list |
| `EnginePoolLimits.StalePoll` | apps/server/src/engine-pool.ts:729-732 | a trace from startup: of two overlapping ticks of one engine, the later hands a session to the engine the earlier retired |
| `EnginePoolLimits.PollKeepsRoutable` | apps/server/src/engine-pool.ts:729-736 | a poll keeps every session owner routable exactly when its engine still drains or the poll found nothing running: the check the tick leaves out |
| `EnginePoolLimits.ParkedManualLost` | apps/server/src/engine-pool.ts:551-578 | a trace from startup: a manual request merged into the slot is lost when the run in flight parks |
| `EnginePoolLimits.ParkDropsMerged` | apps/server/src/engine-pool.ts:563-577 | when a run parks after requests were merged into its slot, the next run is for the parked request alone, with its reason and workspace; the merged flags all survive exactly when it carries those of the slot they made |
| `EnginePoolLimits.ParkRepeats` | apps/server/src/engine-pool.ts:508-516 | after a park the slot is picked up at once, and with the same answers the pool is back where it was after every round |
| `EnginePoolLimits.SpuriousWake` | apps/server/src/engine-pool.ts:789-791 | a trace from startup: the slow close of an engine that drained earlier wakes a run that waits for the engine that drains now |
| `EnginePoolCode.EnginePool.constructor` | apps/server/src/engine-pool.ts:324-332 | an empty pool |
| `EnginePoolCode.EnginePool.AdoptPrimary` | apps/server/src/engine-pool.ts:334-352 | the startup engine becomes the first, primary, generation |
| `EnginePoolCode.EnginePool.RouteRequest` | apps/server/src/engine-pool.ts:386-416 | the route and the ownership left behind are those of the specification, over whole states |
| `EnginePoolCode.EnginePool.SomeOwned` | apps/server/src/engine-pool.ts:435-453 | whether any of the ids is owned by an engine |
| `EnginePoolCode.EnginePool.SomeForeign` | apps/server/src/engine-pool.ts:435-453 | whether any of the ids is owned by another engine |
| `EnginePoolCode.EnginePool.ShouldForwardEvent` | apps/server/src/engine-pool.ts:435-453 | verdict and pins as specified |
| `EnginePoolCode.EnginePool.RequestRollover` | apps/server/src/engine-pool.ts:475-505 | refused when disposed, merged into the slot while a run is in flight, else a run starts |
| `EnginePoolCode.EnginePool.RunPrepared` | apps/server/src/engine-pool.ts:529-541 | skip, wait, park, probe or spawn once the fingerprint is read |
| `EnginePoolCode.EnginePool.RunProbed` | apps/server/src/engine-pool.ts:539-542 | reload in place when idle, else the busy branch |
| `EnginePoolCode.EnginePool.RunBusy` | apps/server/src/engine-pool.ts:551-580 | wait for the drain, park, throttle or spawn |
| `EnginePoolCode.EnginePool.RunReloaded` | apps/server/src/engine-pool.ts:543-548 | the primary captured before takes the new fingerprint only if the reload succeeded |
| `EnginePoolCode.EnginePool.RunResumed` | apps/server/src/engine-pool.ts:557-559 | a woken run stops if disposed, else starts over with its request |
| `EnginePoolCode.EnginePool.RollOverSpawned` | apps/server/src/engine-pool.ts:592-615 | a failed spawn ends the run, a started standby joins the list |
| `EnginePoolCode.EnginePool.RollOverChecked` | apps/server/src/engine-pool.ts:617-628 | an unhealthy standby leaves the list |
| `EnginePoolCode.EnginePool.RollOverClosed` | apps/server/src/engine-pool.ts:623-628 | the run ends after closing it |
| `EnginePoolCode.EnginePool.RollOverRegistered` | apps/server/src/engine-pool.ts:631-645 | the run goes on to the old engine's lists |
| `EnginePoolCode.EnginePool.RollOverSessions` | apps/server/src/engine-pool.ts:647-647 | the running sessions of the old primary, none without one |
| `EnginePoolCode.EnginePool.PendingRequestIds` | apps/server/src/engine-pool.ts:1025-1048 | one prompt list: its requests are collected and its sessions owned at once |
| `EnginePoolCode.EnginePool.RollOverFlip` | apps/server/src/engine-pool.ts:649-661 | the flip and the first drain tick in one segment |
| `EnginePoolCode.EnginePool.FlipTo` | apps/server/src/engine-pool.ts:671-696 | roles, ownership, config and workspaces after a flip |
| `EnginePoolCode.EnginePool.Demote` | apps/server/src/engine-pool.ts:678-685 | the old primary drains with the sessions and prompts it keeps |
| `EnginePoolCode.EnginePool.PointAt` | apps/server/src/engine-pool.ts:687-696 | the config and each local workspace point at the new engine, remote ones stay |
| `EnginePoolCode.EnginePool.SettleRollover` | apps/server/src/engine-pool.ts:509-516 | the lock is released and the slot run at once |
| `EnginePoolCode.EnginePool.StartDrainMonitor` | apps/server/src/engine-pool.ts:727-753 | a deadline and the first tick |
| `EnginePoolCode.EnginePool.Tick` | apps/server/src/engine-pool.ts:729-731 | a tick polls only a draining engine |
| `EnginePoolCode.EnginePool.TickPolled` | apps/server/src/engine-pool.ts:731-747 | activity and ownership follow the poll; retire, abort or go on |
| `EnginePoolCode.EnginePool.UpdateActiveSessions` | apps/server/src/engine-pool.ts:1050-1057 | the engine owns exactly the polled sessions of those it may own |
| `EnginePoolCode.EnginePool.TickAborted` | apps/server/src/engine-pool.ts:742-746 | retirement after the aborts |
| `EnginePoolCode.EnginePool.Retire` | apps/server/src/engine-pool.ts:756-770 | a dead engine owns nothing; retiring twice changes nothing |
| `EnginePoolCode.EnginePool.RetireClosed` | apps/server/src/engine-pool.ts:781-798 | it leaves the list, waiters wake, and a pending rollover would resume |
| `EnginePoolCode.EnginePool.RecoverDeadPrimary` | apps/server/src/engine-pool.ts:846-860 | one recovery at a time, none when disposed |
| `EnginePoolCode.EnginePool.RecoveryClosed` | apps/server/src/engine-pool.ts:867-880 | the dead primary leaves the list, or recovery gives up |
| `EnginePoolCode.EnginePool.RecoverySpawned` | apps/server/src/engine-pool.ts:882-884 | a replacement is spawned or recovery gives up |
| `EnginePoolCode.EnginePool.RecoveryChecked` | apps/server/src/engine-pool.ts:884-896 | an unhealthy replacement is dropped, a healthy one joins the list |
| `EnginePoolCode.EnginePool.RecoveryRegistered` | apps/server/src/engine-pool.ts:897-917 | the replacement is flipped in without a predecessor |
| `EnginePoolCode.EnginePool.DisposeAll` | apps/server/src/engine-pool.ts:803-822 | disposed, slot cleared, every engine of the list in line to be retired, draining ones first |
| `EnginePoolCode.EnginePool.DisposeRetire` | apps/server/src/engine-pool.ts:823-829 | the next engine in line is retired |
| `EnginePoolCode.EnginePool.DisposeEnd` | apps/server/src/engine-pool.ts:830-830 | the list is emptied |
| `EnginePoolCode.EnginePool.Step` | apps/server/src/engine-pool.ts:318-925 | any call or awaited answer moves the object exactly as the machine moves |
| `EnginePoolCode.EnginePool.RunAll` | apps/server/src/engine-pool.ts:318-925 | after any interleaving of them the object is where the machine is: the theorems about runs hold of it |
| `WorkQueueTheorems.PassesNeverOverlap` | apps/server/src/latest-trailing-work-queue.ts:51-64 | over every interleaving, two suspended passes have different keys |
| `WorkQueueTheorems.WaitersAccounted` | apps/server/src/latest-trailing-work-queue.ts:29-64 | for every key the enqueued waiters are, in order, the settled ones, the running batch and the trailing batch; no waiter is settled twice |
| `WorkQueueTheorems.SettledFresh` | apps/server/src/latest-trailing-work-queue.ts:29-64 | each waiter is settled by the first pass that starts after its enqueue, and that pass runs its own value or a later one |
| `WorkQueueTheorems.LatestRuns` | apps/server/src/latest-trailing-work-queue.ts:29-64 | the values run are enqueued values in strictly increasing order of arrival; once a key is idle everybody is settled and the last value run is the last enqueued |
| `WorkQueueTheorems.PassSettles` | apps/server/src/latest-trailing-work-queue.ts:51-64 | an active key has a pass under way whose end, failing or not, settles somebody |
| `WorkQueueTheorems.SettledAsPassEnded` | apps/server/src/latest-trailing-work-queue.ts:51-64 | in every run and for every key, a waiter is resolved exactly when the pass that settles it succeeded, and rejected exactly when that pass failed |
| `WorkQueueTheorems.HistoryOfEvents` | apps/server/src/latest-trailing-work-queue.ts:29-49 | the waiters of a key are those of the values enqueued for it, in order |
| `WorkQueueCode.LatestTrailingWorkQueue.constructor` | apps/server/src/latest-trailing-work-queue.ts:21-27 | an empty queue |
| `WorkQueueCode.LatestTrailingWorkQueue.Enqueue` | apps/server/src/latest-trailing-work-queue.ts:29-49 | joins or replaces the trailing slot of an active key, else starts a drain |
| `WorkQueueCode.LatestTrailingWorkQueue.Run` | apps/server/src/latest-trailing-work-queue.ts:51-55 | the head of the drain loop |
| `WorkQueueCode.LatestTrailingWorkQueue.PassEnded` | apps/server/src/latest-trailing-work-queue.ts:55-63 | the batch is settled in order, the trailing one runs next, an idle key is forgotten |
| `DirectoryFence.MutualExclusion` | apps/server/src/engine-directory-fence.ts:29-43 | in every run, failing operations included, two operations of one directory never run at once and start in order of arrival |
| `DirectoryFence.StartsExactlyInTurn` | apps/server/src/engine-directory-fence.ts:29-37 | a waiting call may start exactly when all earlier calls of its key, and of no other, are finished; a failure never blocks the next |
| `DirectoryFence.MapHoldsUnfinished` | apps/server/src/engine-directory-fence.ts:29-43 | the map holds a key exactly while some call for it is unfinished |
| `DirectoryFence.SomebodyCanMove` | apps/server/src/engine-directory-fence.ts:37-43 | while some call is unfinished, one can start or is running |
| `DirectoryFence.EndsAsItself` | apps/server/src/engine-directory-fence.ts:37-43 | a call starts only when its wait is over, ends only from running and as its operation ended, failing or not, and its promise is then released |
| `DirectoryFence.EngineDirectoryFence.Enter` | apps/server/src/engine-directory-fence.ts:23-35 | a call takes the promise it found and leaves its own |
| `DirectoryFence.EngineDirectoryFence.Begin` | apps/server/src/engine-directory-fence.ts:37-39 | the operation starts once that promise is released |
| `DirectoryFence.EngineDirectoryFence.Leave` | apps/server/src/engine-directory-fence.ts:40-43 | its own promise is released, and the map entry removed if it is still its own |
| `CloudSyncTheorems.NewestIsCurrent` | apps/server/src/cloud-provider-sync.ts:582-640 | over every interleaving, whenever a session is set the newest scheduled context (trailing run, else last pass enqueued) is the session's |
| `CloudSyncTheorems.OneAtATime` | apps/server/src/cloud-provider-sync.ts:663-702 | passes, sweeps and reload retries never overlap and run in the order they were enqueued |
| `CloudSyncTheorems.PromotedForSession` | apps/server/src/cloud-provider-sync.ts:704-712 | a trailing run is promoted only for the session set at that moment |
| `CloudSyncTheorems.StartsForSession` | apps/server/src/cloud-provider-sync.ts:663-702 | a pass that may start is for the session then set exactly when one is set and no trailing run waits: runPass does not look at the session |
| `CloudSyncTheorems.StartsSignedOut` | apps/server/src/cloud-provider-sync.ts:794-797 | a trace: the promoted pass of a session that was cleared while it waited behind a sweep may start with no session set |
| `CloudSyncTheorems.SettledExactlyOnce` | apps/server/src/cloud-provider-sync.ts:590-596 | each promise run handed out is resolved at most once, with the outcome of the pass it stands for or with no session, and exactly when that is due |
| `CloudSyncTheorems.RunHandsOut` | apps/server/src/cloud-provider-sync.ts:615-640 | run hands out a promise exactly when a session is set, and it is one of this kind |
| `CloudSyncTheorems.QueueGrows` | apps/server/src/cloud-provider-sync.ts:582-712 | what each event puts at the end of the serial queue: a sign-out its sweep, a reload retry itself, a call to run or a new session a pass for that session exactly when no run is active and none trails, the end of the active run a pass for the run that trails, and nothing else anything |
| `CloudSyncTheorems.SessionSets` | apps/server/src/cloud-provider-sync.ts:582-588 | setting the session that is set changes nothing; setting another is setting it and running |
| `CloudSyncTheorems.SomethingCanMove` | apps/server/src/cloud-provider-sync.ts:663-670 | while an operation is unsettled, one is running or may start |
| `CloudSyncTheorems.SignInSchedulesBehindSweep` | apps/server/src/cloud-provider-sync.ts:590-640 | after signing in again, something is scheduled behind the sign-out's sweep exactly when the active run is not of the same context |
| `CloudSyncTheorems.SweptWhileSignedIn` | apps/server/src/cloud-provider-sync.ts:623-629 | a trace: signed in, queue idle, and the last thing done was the sweep |
| `CloudSyncCode.CloudProviderSync.constructor` | apps/server/src/cloud-provider-sync.ts:566-580 | nothing scheduled |
| `CloudSyncCode.CloudProviderSync.SetSession` | apps/server/src/cloud-provider-sync.ts:582-588 | same context: nothing; else the session is set and run |
| `CloudSyncCode.CloudProviderSync.ClearSession` | apps/server/src/cloud-provider-sync.ts:590-613 | the trailing promise is resolved with no session and a sweep enqueued |
| `CloudSyncCode.CloudProviderSync.Enqueue` | apps/server/src/cloud-provider-sync.ts:663-670 | an operation's place in the serial queue |
| `CloudSyncCode.CloudProviderSync.Run` | apps/server/src/cloud-provider-sync.ts:615-640 | which promise is handed out, and what is scheduled for it |
| `CloudSyncCode.CloudProviderSync.StartRun` | apps/server/src/cloud-provider-sync.ts:693-702 | a pass joins the queue and becomes the active run |
| `CloudSyncCode.CloudProviderSync.Follow` | apps/server/src/cloud-provider-sync.ts:711-711 | a trailing promise follows a pass |
| `CloudSyncCode.CloudProviderSync.FinishRun` | apps/server/src/cloud-provider-sync.ts:704-712 | the trailing run, if any, becomes the next pass |
| `CloudSyncCode.CloudProviderSync.BeginOperation` | apps/server/src/cloud-provider-sync.ts:663-670 | an operation starts when the one before has settled |
| `CloudSyncCode.CloudProviderSync.EndOperation` | apps/server/src/cloud-provider-sync.ts:663-702 | a pass's promise is resolved, then those that follow it |
| `CloudApply.UpsertEntry` | apps/server/src/cloud-provider-sync.ts:380-387 | in place: blank keys and values are ignored, a known key gets its new trimmed value, an unknown one is appended |
| `CloudApply.UpsertAllLaw` | apps/server/src/cloud-provider-sync.ts:380-387 | a list built by upserts holds each key once, with the last non-blank value given for it, trimmed |
| `CloudPrepare.ProviderEnvEntries` | apps/server/src/cloud-provider-sync.ts:401-421 | the entries of one provider, upsert by upsert |
| `CloudPrepare.PrepareMaterialization` | apps/server/src/cloud-provider-sync.ts:456-514 | the prepared providers and env entries, and exactly the skipped providers |
| `CloudPrepare.SkippedIff` | apps/server/src/cloud-provider-sync.ts:459-474 | a provider is skipped exactly when it declares env names and none of them is given a value that is not blank |
| `CloudPrepare.UntrimmedNamesSkip` | apps/server/src/cloud-provider-sync.ts:462-463 | a provider whose env names are declared with blanks around them is always skipped |
| `CloudPrepare.PreparedLaw` | apps/server/src/cloud-provider-sync.ts:482-486 | the prepared entries hold each key once; a key's value is that of the last materialized provider that has one |
| `CloudEntries.DesiredExactly` | apps/server/src/cloud-provider-sync.ts:508-510 | a pass is asked to write a runtime id exactly when a provider that is not skipped has it, with the configuration of the last such provider |
| `CloudEntries.EntryExactly` | apps/server/src/cloud-provider-sync.ts:401-421 | which value each env key gets: an OpenWork provider that has a credential gives it, and its base URL, under their own names; the single API key goes to the first declared name; of the API keys the last that is not declared, or else the one declared last, gives the rest; the credential is the trimmed single key, or else the value of the first entry |
| `CloudApply.PassLaw` | apps/server/src/cloud-provider-sync.ts:822-859 | after an error-free pass: desired providers hold their configuration, other managed ones are gone, unmanaged ones untouched; desired env keys hold their values, previously owned keys no longer desired are gone, all others untouched; owned keys are the desired ones |
| `CloudFaults.FaultyPass` | apps/server/src/cloud-provider-sync.ts:822-859 | what a pass that throws has done by then: nothing at its provider write; after it the providers of the error-free pass, and on record every id it may have written; before the deletions no env key; while deleting every desired value upserted and exactly the keys it got to deleted and no longer owned |
| `CloudFaults.ReportExactly` | apps/server/src/cloud-provider-sync.ts:908-922 | a pass reports exactly when it throws nowhere, and then whether the managed providers differed from the desired map, which entries the env store did not hold, which owned keys were no longer desired, and whether the fingerprint is new |
| `CloudFaults.SweepExactly` | apps/server/src/cloud-provider-sync.ts:596-611 | every sweep, throwing or not, forgets the fingerprint and what the cloud owned; it takes away the managed providers unless it throws at them, and of the owned env keys those it gets to |
| `CloudFaults.ManagedExactly` | apps/server/src/cloud-provider-sync.ts:372-374 | a key is managed exactly when it begins with lpr_ in any case or is "openwork" with nothing but blanks around it |
| `CloudApply.PassReachesDesired` | apps/server/src/cloud-provider-sync.ts:825-840 | for any prepared providers, the managed part of the provider map equals the desired map after an error-free pass exactly when every desired id is a managed key, which every fetched one is (FetchedManaged) |
| `CloudApply.SecondPassNoop` | apps/server/src/cloud-provider-sync.ts:822-922 | repeating a pass upserts and deletes nothing and changes no state; it writes no provider, and reports no change, exactly when every desired id is a managed key, which every fetched one is (FetchedManaged) |
| `CloudApply.SignOutLeaves` | apps/server/src/cloud-provider-sync.ts:841-859 | after any passes of a session, of fetched providers or others, each failing anywhere or not, an error-free sweep leaves only env values, and providers under managed keys, that were there before with that value; a provider under another key stays as it was when no pass wrote it, and else is left exactly when it was dropped: an error-free pass since the last that wrote it no longer desired it |
| `CloudApply.SignOutLeavesNothing` | apps/server/src/cloud-provider-sync.ts:841-859 | if all desired ids of the passes are managed keys, only providers and env values that were there before are left, and no unmanaged provider is lost |
| `CloudPrepare.FetchedAreCloud` | apps/server/src/cloud-provider-sync.ts:241-348 | fetching gives one provider for each of the list, in its order, with its id, and only ids that begin with lpr_ in any case; one answer that does not parse fails it |
| `CloudFaults.FetchedExactly` | apps/server/src/cloud-provider-sync.ts:241-348 | there are providers to work on exactly when every answer of the list is complete and has a cloud id and each has a complete connection with the same id; they are those of the connections, in the order of the list |
| `CloudPrepare.FetchedManaged` | apps/server/src/cloud-provider-sync.ts:368-374 | whatever the cloud answers, a pass is asked to write each env key once and every provider under a managed key |
| `CloudPrepare.FetchedPassSettles` | apps/server/src/cloud-provider-sync.ts:822-840 | whatever the cloud answers, an error-free pass makes the managed part of the provider map the desired map, and repeating it writes nothing, changes nothing and reports no change |
| `CloudPrepare.SignedOutClean` | apps/server/src/cloud-provider-sync.ts:596-611 | whatever the cloud answered in a session and wherever its passes failed, an error-free sweep at sign-out leaves only providers and env values that were there before, and loses no provider under an unmanaged key |
| `CloudApply.FailedSweepForgets` | apps/server/src/cloud-provider-sync.ts:596-611 | a sweep forgets what the cloud owned whether or not it throws; a cloud env key then stays for good, whatever sweeps and passes of other keys follow, exactly when the sweep threw before it deleted that key |
| `CloudApplyCode.CloudProviderWriter.constructor` | apps/server/src/cloud-provider-sync.ts:559-561 | nothing owned |
| `CloudApplyCode.CloudProviderWriter.UpsertMissing` | apps/server/src/cloud-provider-sync.ts:843-847 | only entries the store does not hold already are written |
| `CloudApplyCode.CloudProviderWriter.DeleteOwned` | apps/server/src/cloud-provider-sync.ts:855-859 | each key leaves the store and the owned set |
| `CloudApplyCode.CloudProviderWriter.WriteProviders` | apps/server/src/cloud-provider-sync.ts:830-840 | undesired managed ids are deleted, desired ones replaced |
| `CloudApplyCode.CloudProviderWriter.Apply` | apps/server/src/cloud-provider-sync.ts:822-922 | state and detail of a pass, up to the place where it throws, if it does |
| `CloudApplyCode.CloudProviderWriter.SweepAll` | apps/server/src/cloud-provider-sync.ts:980-990 | state after a sweep and the cleanup that follows it |
| `StableJson.StableIffSame` | apps/server/src/cloud-provider-sync.ts:350-358 | two JSON values have one stable form exactly when they are the same but for the order of object keys, at every depth |
| `VaultTheorems.ListingsAgree` | apps/server/src/local-managed-mcp.ts:802-855 | for every vault a run of calls leaves, whatever key losses, recoveries and failed writes it met, the listing served from the plaintext index when the key is unavailable has the rows and recovery note of the decrypted listing |
| `VaultTheorems.RunKeeps` | apps/server/src/local-managed-mcp.ts:464-475 | over every run, each connection sits in the slot of its workspace and name, and the index is the projection of the vault beside it |
| `VaultTheorems.RecoveryKeeps` | apps/server/src/local-managed-mcp.ts:382-401 | opening a version 2 file with another key rebuilds exactly the same connections with their identity fields, without any secret, registration, credential or pending authorization, and notes the quarantine |
| `VaultTheorems.RecoveryIdempotent` | apps/server/src/local-managed-mcp.ts:434-462 | recovering a recovered file gives the same vault |
| `VaultTheorems.RecoveryLoses` | apps/server/src/local-managed-mcp.ts:434-449 | a version 1 file recovers to no connections; a recovery whose write fails leaves no file, and the next load an empty vault |
| `VaultTheorems.ConnectionKeyInjective` | apps/server/src/local-managed-mcp.ts:481-483 | distinct (workspace, name) pairs never share a slot |
| `VaultTheorems.NamesUnique` | apps/server/src/local-managed-mcp.ts:841-844 | a workspace's listing names each connection once |
| `VaultTheorems.EachUsedOnce` | apps/server/src/local-managed-mcp.ts:560-591 | over every run of calls from an empty store, each authorization transaction is consumed by at most one successful authorization-code save, and of all refresh saves that expect one defined credential revision at most one succeeds |
| `VaultTheorems.BegunSavesOnce` | apps/server/src/local-managed-mcp.ts:568-590 | a begun authorization lets its own save through once; repeating the save changes nothing |
| `VaultCalls.WrittenExactly` | apps/server/src/local-managed-mcp.ts:464-475 | when a call is written: it opens the vault, is accepted and the file system takes it; then the vault, its index and the recovery note are in the file under the key, else the file is as the load left it; exactly the written saves are logged |
| `VaultCalls.CallChanges` | apps/server/src/local-managed-mcp.ts:525-662 | a written call changes its own connection, field by field as its name says, and leaves every other as it was; identity, settings and creation time never change |
| `VaultCalls.RefusedExactly` | apps/server/src/local-managed-mcp.ts:560-604 | why a call is refused, each reason exactly when, and when there is nothing to write |
| `VaultCalls.ForgottenForGood` | apps/server/src/local-managed-mcp.ts:1179-1205 | after a written disconnect or deletion, in every run, no save with an authorization begun before or expecting a credential stored before succeeds for that connection |
| `VaultCalls.DisconnectedListing` | apps/server/src/local-managed-mcp.ts:1179-1192 | after a written disconnect the connection is listed without a credential, disabled and to be authorized anew, and no authorization is left |
| `VaultCalls.InvalidatedForGood` | apps/server/src/local-managed-mcp.ts:632-642 | after a written invalidation of an authorization, in every run, no save with its handle succeeds for that connection |
| `VaultCalls.ReplacedForGood` | apps/server/src/local-managed-mcp.ts:560-602 | after a written invalidation of a credential, or a written save that replaces it, in every run, no refresh that expects it succeeds for that connection |
| `VaultCalls.RegistrationStays` | apps/server/src/local-managed-mcp.ts:530-553 | the first client registration of a connection stays through every written call but its invalidation or the deletion of the connection |
| `VaultCalls.ListedExactly` | apps/server/src/local-managed-mcp.ts:802-855 | a listing of an opened vault has a row for exactly the connections of the workspace, with what each says, but of its secrets only that there is one |
| `VaultCalls.LockedListing` | apps/server/src/local-managed-mcp.ts:802-855 | a listing whose key is unavailable is that of the index, with the note of the last recovery; any other error is thrown on |
| `VaultQueue.CallsInTurn` | apps/server/src/local-managed-mcp.ts:366-380 | over every interleaving of arrivals, loads, changes and writes, calls take effect one after another in order of arrival: the store is always as if the finished ones had run all at once, but for what the one under way has done |
| `VaultQueue.EachUsedOnceQueued` | apps/server/src/local-managed-mcp.ts:464-475 | so over every such interleaving each authorization transaction is consumed by at most one successful save, and of all refresh saves that expect one defined revision at most one succeeds |
| `VaultQueue.QueueMoves` | apps/server/src/local-managed-mcp.ts:366-380 | while a call is unfinished, the call whose turn it is can move or a promise before it can settle |
| `VaultCode.LocalManagedMcpVault.constructor` | apps/server/src/local-managed-mcp.ts:174-176 | no file |
| `VaultCode.LocalManagedMcpVault.WriteVault` | apps/server/src/local-managed-mcp.ts:333-364 | the file holds the vault, its index and the recovery note |
| `VaultCode.LocalManagedMcpVault.RecoverVaultLocked` | apps/server/src/local-managed-mcp.ts:434-450 | quarantine, rebuild from the index, write |
| `VaultCode.LocalManagedMcpVault.LoadVaultLocked` | apps/server/src/local-managed-mcp.ts:453-462 | absent, unavailable, opened or recovered |
| `VaultCode.LocalManagedMcpVault.EditInPlace` | apps/server/src/local-managed-mcp.ts:531-663 | the change, or the refusal, of each persistence call and connection update |
| `VaultCode.LocalManagedMcpVault.WithVaultMutation` | apps/server/src/local-managed-mcp.ts:464-475 | load, change, write; a refused or unwritten change leaves the file |
| `VaultCode.LocalManagedMcpVault.List` | apps/server/src/local-managed-mcp.ts:829-855 | the safe listing |
| `AddressTextTheorems.ParsesExactlyForms` | apps/server/src/local-managed-mcp-url-guard.ts:43-67 | an address, in lower case, is a text form of section 2.2 of RFC 4291 of given words (eight groups, or groups around one elided run of at least one zero word, the last two words possibly as four decimal octets between dots) exactly when it parses to those words and there is nothing but decimal octets between the dots of its tail |
| `AddressTextTheorems.ParsesExactlyRead` | apps/server/src/local-managed-mcp-url-guard.ts:43-67 | it parses to given words exactly when it has no zone and is such a form of those words with whatever parseIpv4 reads as its dotted tail |
| `AddressTextTheorems.AnyQuadParses` | apps/server/src/local-managed-mcp-url-guard.ts:17-22 | any tail that parseIpv4 reads makes an address of the two words it spells behind an elided run; with a part that is no decimal octet it is no text form |
| `AddressTextTheorems.HexOctetParses` | apps/server/src/local-managed-mcp-url-guard.ts:17-22 | such an input: the tail 0x7f.0.0.1 parses, as Number reads hexadecimal |
| `AddressTextTheorems.EightWords` | apps/server/src/local-managed-mcp-url-guard.ts:43-67 | whatever parses, parses to eight 16-bit words |
| `AddressTextTheorems.RoundTrip` | apps/server/src/local-managed-mcp-url-guard.ts:43-67 | for all eight 16-bit words, each text form parses back to those words: full, any run of zeros elided, last two words dotted |
| `AddressTextTheorems.CaseIgnored` | apps/server/src/local-managed-mcp-url-guard.ts:43-45 | addresses that differ in the case of letters only are read alike |
| `AddressTextTheorems.DottedReads` | apps/server/src/local-managed-mcp-url-guard.ts:17-22 | four octets printed in decimal parse back to those octets |
| `AddressVerdict.Ipv4Verdict` | apps/server/src/local-managed-mcp-url-guard.ts:24-41 | a text is refused as IPv4 exactly when it does not parse or its 32-bit value lies in one of fourteen networks |
| `AddressVerdict.OctetsAreNetworks` | apps/server/src/local-managed-mcp-url-guard.ts:27-40 | the octet tests accept exactly the union of those networks |
| `AddressVerdict.MasksArePrefixes` | apps/server/src/local-managed-mcp-url-guard.ts:84-88 | each mask test is exactly the test of its address prefix |
| `AddressVerdict.WordsArePrefixes` | apps/server/src/local-managed-mcp-url-guard.ts:79-89 | each test on whole words is exactly the test of its address prefix |
| `AddressVerdict.EmbeddedVerdict` | apps/server/src/local-managed-mcp-url-guard.ts:69-71 | printing two words as a dotted quad and parsing it back gives the verdict on the 32 bits they hold |
| `AddressVerdict.WordsVerdict` | apps/server/src/local-managed-mcp-url-guard.ts:73-92 | the rules, in the order they are tried, refuse exactly the 128-bit values that a table of prefixes and embedded IPv4 networks refuses, in any order |
| `AddressVerdict.Ipv6Verdict` | apps/server/src/local-managed-mcp-url-guard.ts:73-92 | a text is refused as IPv6 exactly when it does not parse or its words have a refused value; if its tail is decimal, exactly when it is no text form or the words it spells have a refused value |
| `AddressVerdict.GuardVerdict` | apps/server/src/local-managed-mcp-url-guard.ts:94-99 | the exported guard refuses an address exactly when it is none, has a zone, or is four decimal octets or a text form whose value is refused |
| `AddressVerdict.EmbeddedText` | apps/server/src/local-managed-mcp-url-guard.ts:79-83 | in whatever text form, a mapped, translated, NAT64 or 6to4 address gets the verdict of its embedded IPv4 address's own text |
| `Numerals.HighMask` | apps/server/src/local-managed-mcp-url-guard.ts:86-90 | comparing the bits under a mask of leading bits compares prefixes |
| `AscendingIds.AscendingId` | apps/server/src/opencode-db.ts:157-164 | the byte loop computes prefix, 48 bits in hexadecimal, random tail |
| `AscendingIds.Seed` | apps/server/src/opencode-db.ts:212-258 | every row's message id, part id and creation time; an assistant message's parent is the last user message before it, or itself |
| `AscendingIds.ConversationOf` | apps/server/src/opencode-db.ts:212-258 | creation times are one apart from the start; ids begin with what they are of; an assistant message behind a user message answers it, one behind an assistant message answers what that one does, and one before any user message itself |
| `AscendingIds.IdParts` | apps/server/src/opencode-db.ts:157-164 | an id is its prefix, twelve hexadecimal digits of the time part, and the tail |
| `AscendingIds.BytesSpell` | apps/server/src/opencode-db.ts:158-162 | the six bytes spell the value modulo 2^48, also for negative values |
| `AscendingIds.IdsOrdered` | apps/server/src/opencode-db.ts:157-164 | ids of one prefix are ordered as strings as their 48-bit time parts, whatever the random tails |
| `AscendingIds.IdsAscendIff` | apps/server/src/opencode-db.ts:208-220 | the message ids of one seeding, and its part ids, are strictly increasing strings in insertion order exactly when their values share the bits above the 48th |
| `AscendingIds.TimePartsDistinctIff` | apps/server/src/opencode-db.ts:213-220 | across wraps, the time parts of message ids, and of part ids, are pairwise distinct exactly when at most 2^47 messages are seeded |
| `AscendingIds.MessageAndPartDiffer` | apps/server/src/opencode-db.ts:213-220 | no message id shares its time part with a part id |
| `DeliveryStore.EntryHistory` | apps/server/src/cloud-mcp-health.ts:425-568 | after every sequence of mark calls: an entry desires the last revision desired since the last clear; it shows r applied exactly when it was marked ready while r was desired and since then nothing cleared the store, marked it stale or desired another revision; nothing but its desired revision is ever applied; ready only while applied |
| `DeliveryStore.SnapshotHistory` | apps/server/src/cloud-mcp-health.ts:428-452 | what a snapshot of r says, in those terms |
| `DeliveryStore.FieldHistory` | apps/server/src/cloud-mcp-health.ts:465-568 | after every sequence of mark calls, each field of an entry (state, the two times of change and attempt, failure, time of application, metadata) is as the last call since the last clear that counts and decides the field left it; a call counts when its revision is then desired |
| `DeliveryStore.StateExactly` | apps/server/src/cloud-mcp-health.ts:465-538 | a snapshot of a desired revision is ready, pending, registering, failed or stale exactly as the last call that counts says: a desire makes it ready exactly when the revision is applied already |
| `DeliveryStore.SomeDecided` | apps/server/src/cloud-mcp-health.ts:465-538 | every entry has such a last call |
| `DeliveryStore.AttemptHistory` | apps/server/src/cloud-mcp-health.ts:490-522 | an entry shows an attempt only if a registering or failed mark counts since the last clear |
| `DeliveryStore.SnapshotShows` | apps/server/src/cloud-mcp-health.ts:428-452 | a snapshot of the desired revision shows what the entry holds; of any other, that it is pending, with nothing applied |
| `DeliveryStore.SupersededChangesNothing` | apps/server/src/cloud-mcp-health.ts:544-554 | registering, ready and failed marks for a superseded revision change nothing, after any history |
| `DeliveryStore.KeysDiffer` | apps/server/src/cloud-mcp-health.ts:540-542 | two keys are equal exactly when workspace and directory (none counting as empty) are, for workspace ids without NUL |
| `DeliveryStore.CloudMcpDeliveryStateStore.constructor` | apps/server/src/cloud-mcp-health.ts:425-426 | an empty store |
| `DeliveryStore.CloudMcpDeliveryStateStore.MarkDesired` | apps/server/src/cloud-mcp-health.ts:465-488 | a new desire, keeping what is applied only for the same revision |
| `DeliveryStore.CloudMcpDeliveryStateStore.Update` | apps/server/src/cloud-mcp-health.ts:544-554 | only for the revision still desired |
| `DeliveryStore.CloudMcpDeliveryStateStore.MarkRegistering` | apps/server/src/cloud-mcp-health.ts:490-497 | registering |
| `DeliveryStore.CloudMcpDeliveryStateStore.MarkReady` | apps/server/src/cloud-mcp-health.ts:499-509 | ready and applied |
| `DeliveryStore.CloudMcpDeliveryStateStore.MarkFailed` | apps/server/src/cloud-mcp-health.ts:511-522 | failed, keeping what is applied |
| `DeliveryStore.CloudMcpDeliveryStateStore.MarkWorkspaceStale` | apps/server/src/cloud-mcp-health.ts:524-534 | stale, nothing applied |
| `DeliveryStore.CloudMcpDeliveryStateStore.Clear` | apps/server/src/cloud-mcp-health.ts:536-538 | empty |
| `DeliveryStore.CloudMcpDeliveryStateStore.TakeSnapshot` | apps/server/src/cloud-mcp-health.ts:428-452 | the snapshot of a revision |
| `DesktopDiff.DiffInstalled` | apps/server/src/desktop-cloud-sync.ts:400-457 | the nested loops compute the diff of every installed thing, in order |
| `DesktopDiff.DiffPlugin` | apps/server/src/desktop-cloud-sync.ts:428-454 | a plugin's own change, then its files' |
| `DesktopDiffTheorems.FindRemotePluginLaw` | apps/server/src/desktop-cloud-sync.ts:333-346 | a plugin is found exactly when some marketplace lists it, where it is listed, and in the preferred marketplace when that lists it |
| `DesktopDiffTheorems.DiffEmptyIff` | apps/server/src/desktop-cloud-sync.ts:348-457 | the diff is empty exactly when every installed provider, marketplace, plugin and file has a remote counterpart with an equal timestamp |
| `DesktopDiffTheorems.DiffConverges` | apps/server/src/desktop-cloud-sync.ts:400-457 | applying a diff (each changed thing moves to its next timestamp, removed ones are dropped) makes the next diff of the same snapshot empty |
| `DesktopDiffTheorems.ChangeRecords` | apps/server/src/desktop-cloud-sync.ts:348-398 | every change of a diff was queued at the time of that sync, and it is removed without a next timestamp, new with a next one only, modified with two that differ |
| `DesktopDiffTheorems.DiffExactly` | apps/server/src/desktop-cloud-sync.ts:348-457 | a diff holds exactly the changes of installed providers, marketplaces, plugins and files whose remote counterpart is not current, each with the marketplace it is offered in (or was installed from), its timestamps and the kind they make |
| `DesktopDiffTheorems.PendingIsNewest` | apps/server/src/desktop-cloud-sync.ts:324-331 | over every sequence of syncs, a change is pending exactly when it is of the newest diff that had a change of its key |
| `DesktopDiffTheorems.PendingOrder` | apps/server/src/desktop-cloud-sync.ts:324-331 | a sync that finds changes puts them, in order, behind the earlier ones that have none of their keys, in the order these had; one that finds none changes nothing |
| `DesktopDiffTheorems.PendingUnique` | apps/server/src/desktop-cloud-sync.ts:324-331 | over every sequence of syncs of distinct installations with clean ids, the pending changes have each key once |
| `DesktopDiffTheorems.ChangeKeyInjective` | apps/server/src/desktop-cloud-sync.ts:320-322 | changes share a key only when they are about the same thing, if no id holds a pair of colons and no marketplace's or plugin's ends in a colon |
| `DesktopDiffTheorems.KeyAmbiguousIff` | apps/server/src/desktop-cloud-sync.ts:320-322 | of the changes whose ids hold no pair of colons, one shares its key with a change about another thing exactly when one of its parts ends in a colon and the next does not start with one, or the other way round |
| `DesktopDiffTheorems.KeysCollide` | apps/server/src/desktop-cloud-sync.ts:320-322 | whatever the ids, a file of a plugin whose id ends in a colon shares its key with another file of another plugin |
| `DesktopDiffTheorems.CollidingFilesPend` | apps/server/src/desktop-cloud-sync.ts:324-331 | when both of these files are out of date, the pending changes hold two changes of one key about two things, whatever was pending before |
| `DesktopDiffTheorems.DuplicatePends` | apps/server/src/desktop-cloud-sync.ts:324-331 | such an installation, in which nothing is installed twice, for any plugin and file id |
| `DesktopDiffTheorems.PendingDropped` | apps/server/src/desktop-cloud-sync.ts:324-331 | a pending change is dropped by a diff that no longer holds it exactly when that diff has a change of its key, about whatever thing |
| `DesktopDiffTheorems.CollisionForgets` | apps/server/src/desktop-cloud-sync.ts:324-331 | two syncs, for any plugin and file id, of which the second says nothing of the thing whose pending change it drops |

## Left out

- EnginePoolDrains.DrainEnds: counts time in completed polls and says that the engine is retired or being aborted; it is retired once those aborts are done (`RunEnding`). That polls and aborts complete is not claimed.
- EnginePoolLimits.StandbyFlips: covers old engines with no running session and no pending prompt; the flip with both is `EnginePoolCode.EnginePool.RollOverFlip` and the safety theorems.
- EnginePoolDrains.CloseWakes: is about one close; which runs a close resumes, and what they find, is in `EnginePoolWakes`.
- EnginePoolWakes.SleeperResumes: that the poll, the aborts and the close come back is not claimed.
- EnginePoolCode.EnginePool.RecoverDeadPrimary: does not close the orphan an earlier recovery left.
- EnginePoolCode.EnginePool.RecoveryClosed: marks the dead primary and drops it from the list in one step.
- EnginePoolCode.EnginePool.RecoverySpawned: does not schedule the retry of a failed recovery.
- EnginePoolCode.EnginePool.RecoveryChecked: neither keeps an orphan nor schedules the retry of a failed recovery.
- EnginePoolCode.EnginePool.DisposeAll: does not close the orphan; when called again before its engines are retired, the two calls retire theirs one call after the other.
- CloudApply.SecondPassNoop: leaves out the workspace cleanup, the runtime file and the engine reload, which report through modules that are not part of this model.
- CloudApply.SignOutLeavesNothing: is for passes whose desired ids are all managed keys; `CloudPrepare.SignedOutClean` shows that all passes of fetched providers are.
- CloudPrepare.FetchedPassSettles: leaves out what `CloudApply.SecondPassNoop` does.
- CloudPrepare.FetchedAreCloud: of what an answer must hold, the id is modelled, and the rest is one flag.
- EnginePoolOutcomes.RolloverEnds: is about a run whose segments follow one another; what may happen between them is in `EnginePoolHandover.RunMoves`, `ReloadReaches`, `EnginePoolHandover.RolloverHandsOver` and `EnginePoolEndings.WaiterStartsOver`.
- EnginePoolEndings.RecoveryEnds: likewise; recoveries that overlap other runs are in `EnginePoolOverlaps`.
- CloudEntries.EntryExactly: takes each API key to be named once, as the keys of a record are.
- EnginePoolWakes.WokenFindsDrain: covers the close of an engine the list still holds; one that was demoted again after it left the list counts as dead, and its later close is no event.
- EnginePoolDisposal.DisposalCompleteIff: judges the states in which nothing is left in line, also before the pending closes come back; the outcome after them is `EnginePoolAftermath.DisposalEmptiesIff`.
- EnginePoolDisposal.DisposedServesIff: likewise counts an engine that serves only until its pending close comes back.
- CloudApply.SignOutLeaves: nobody else writes providers or env keys during the session, and an env key the cloud overwrote is deleted at sign-out whatever it held before, as in the code.
- CloudApplyCode.CloudProviderWriter.Apply: leaves out the workspace cleanup, the runtime file, the engine reload and the auth sync.
- CloudApplyCode.CloudProviderWriter.SweepAll: leaves out the runtime file and the engine reload.
- VaultCode.LocalManagedMcpVault.WithVaultMutation: is one step; its awaits, and the queue that makes it one, are in `VaultQueue`.
- DeliveryStore.SnapshotHistory: for non-empty revisions; an empty one counts as none.
- DesktopDiffTheorems.PendingUnique: for installations that hold no id twice, which the reader of the stored record ensures for all but files of one plugin.
- Engine pool: a generation removed from the list counts as dead to every continuation that still holds it; trusted-process and registry calls, event proxy abort controllers, the orphan, retry timer and failure counter of recovery, and logging do not appear; a run whose fingerprint read fails settles at once and has no event of its own; a recovery's mark of the dead primary and its removal from the list are one step; a disposal may go on before an engine's close has come back, which allows more runs than the code.
- Engine pool: request paths and events are given as the session, request and flags found in them; the regular expressions that find them are not modelled.
- Engine pool: `adoptPrimary` happens once, at startup.
- Cloud provider sync: timers, the reload and its retry count as operations with an outcome; a reload mark that arrives during a reload await is cleared when that reload lands (lines 658-661 and 887-888), which is not modelled.
- Cloud provider sync: parsing of responses other than of provider ids, model configurations, the order of providers by locale and the fingerprint's hash; the fingerprint is a given string, providers come in order.
- Stable JSON: that `JSON.stringify` tells stable values apart is taken for granted; integer-like keys, which JavaScript objects enumerate first, are ordered like all others.
- Directory fence: the key of a workspace's directory is any value.
- Vault: a load, with its recovery, is one segment; the key stays the same during a call, as it is cached; the persistence deadline only refuses calls; damaged files, the order of a listing's rows and the sanitising of error texts do not appear; `EditInPlace` takes the text to store.
- URL guard: lower case is that of ASCII letters, the only ones that matter to an address; DNS, the guarded fetch and `isIP` itself are left out.
- Seeded ids: the database; the random tail is any string.
- Desktop diff: reading and trimming the stored records, and that record lookups find inherited property names.
- The agent context diagnostics, the other cloud health checks, small stores, routing, configuration and process code: they would only add easy members.
