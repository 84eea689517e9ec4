# A verified model of the IoT agent's core

The agent polls devices, selects events, batches them, stores batches until a receiver has confirmed
them, keeps a logical clock synchronised to its hub, and applies configurations. This project models
the stateful core of that program in Dafny and proves what it is for:

- **Telemetry is not lost silently.** Whatever the outbox deletes as stored is held by the receiver, byte
  for byte (`Delivery`); every captured event is accounted for exactly once across engine, outbox and
  accounting (`Pipeline`).
- **The outbox is durable, bounded, paced and fair** over whole runs with crashes and failing calls
  (`OutboxRuns`, `OutboxBounds`, `OutboxPacing`, `OutboxTheorems`).
- **Selection is simple.** The engine's shadows, baselines, owners and reference counts refine a memory of
  one sample per point (`EngineMemory`, `EngineSelection`, `EngineLedger`).
- **The clock tells the truth.** Every valid reading encloses true hub time, so a batch is only ever
  declared too old when it is (`PlatformClock*`, `OutboxTheorems`).
- **Configurations are neither lost nor half applied** (`ConfigTables`, `Lifecycle`, `DeviceRuntime`).
- **Modbus reads are planned exactly and optimally** (`ReadPlan`).

## How it is built

Each stateful part has a specification, functions on an immutable state, and a class that changes fields
in place as the code does. Class methods are proved to compute the specification; invariants and the
theorems over whole runs are proved on the specification. The clock, outbox and engine classes carry the
run that led to their state as a ghost history, so every theorem about runs holds of the objects.

A batch in the outbox is a row: its local order is never given again, while its message id is free once
the row is gone. Pacing, retries and write-ahead are stated of orders. A process may open its tables again
under a living session (`Reattach`) or die and leave them to a new one (`Restart`).

A database transaction is one step that may fail without effect. Readings of clocks, random jitter,
fresh ids, faults of drivers and of storage, validity and length of JSON text are parameters or
nondeterministic choices. Hashes are taken as injective. Monotonic seconds, uncertainties and engineering
values are real numbers, milliseconds read from clocks are integers.

Where the classes keep several dictionaries or flags that the code holds as separate attributes, they are
grouped in one record field (`session`, `memory`, `stock`, `account`).

Every decision is stated twice. The methods compute the specification's functions; beside these stand laws in
plain terms that name none of them (`EngineAnswers`, `EngineBatches`, `PlatformClockGrants`,
`PlatformClockRounds`, `OutboxRules`, `DeliveryRefusals`, `ConfigAnswers`, `PipelineFates`, `PipelineReadings`,
and the programs of runners in `DeviceRuntime`): what counts as a change, which request is granted, which
refusal isolates, what a kept runner polls, which counter an event ends in.

## Findings

- Send gates are ordered except in one window: `control_submitted` takes a second reading inside
  `require`, and if validity ends between the two readings the heartbeat is marked as submitted in a
  session that is no longer synchronised (`PlatformClockGates.HeartbeatMaySlip`). This happens in a run from
  start-up: connect, three exchanges, an idle hour less a millisecond, heartbeat
  (`PlatformClockGates.GatesSlipFromStart`). The exact condition is
  `PlatformClockGates.HeartbeatGatesExactly`; get-submitted still always implies heartbeat-submitted.
- As a consequence telemetry may be sent although trust was lost with the only heartbeat: once the clock is
  synchronised again the heartbeat's mark still opens the gates (`PlatformClockSlips.SendAfterSlip`). In every
  other case nothing is lost between the heartbeat and the sending (`PlatformClockGrants.SendRestsOn`).
- As long as the database returns what was written, these error branches are unreachable:
  RUNTIME_VERSION_MISMATCH and UNEXPECTED_COMMITTED_VERSION in `_apply`, the corrupt-batch error in
  `reserve`, the quota errors on opening the outbox, and the identity conflict and vanished records on
  opening it again.
- Accounting never refuses a frozen batch: its limit of 64 is above the eight that can be waiting.
- A sequence number is used up even when its batch is then not frozen for want of bytes.

## Model

| member | source | states |
|---|---|---|
| `ReadPlan.PlanReads` | src/plcnext_iot/points/read_plan.py:18-32 | the plan is exact (every enabled point whole in exactly one block of its area and period, no uncovered address, 2000/125 limits), no other exact plan has fewer blocks, and its points come in the sorted order |
| `ReadPlan.BlockExactly` | src/plcnext_iot/points/read_plan.py:5-32 | an admissible block is one request for at most 2000 bits or 125 registers that reads the addresses its points take up, two for each 32-bit value, and no other |
| `ReadPlan.Sort` | src/plcnext_iot/points/read_plan.py:20-21 | a sorted permutation under the four-part key |
| `ReadPlan.MergeStep` | src/plcnext_iot/points/read_plan.py:26-29 | extending the last block keeps the plan exact and its blocks necessary |
| `ReadPlan.AppendStep` | src/plcnext_iot/points/read_plan.py:30-31 | a point that does not fit must open a block: it is apart from every earlier block's first point |
| `ReadPlan.SharedNotApart` | src/plcnext_iot/points/read_plan.py:18-32 | two points that are apart (a hole or the limit lies between) share a block in no exact plan |
| `ReadPlan.AnchorsBound` | src/plcnext_iot/points/read_plan.py:18-32 | pairwise apart points bound every exact plan from below |
| `ConfigPatch.Materialize` | src/plcnext_iot/config/patch.py:19-44 | the loop over operations computes the specified snapshot or the first refusal with its index |
| `ConfigPatch.MaterializedMeaning` | src/plcnext_iot/config/patch.py:19-44 | accepted iff the base is named, every operation is consistent with the last earlier one naming its device, and the result is valid; each device is then what the last operation naming it says, else the base's |
| `ConfigPatch.ApplyFromMeaning` | src/plcnext_iot/config/patch.py:28-39 | step-by-step application equals the last-operation-wins meaning |
| `ConfigTables.ReachableInv` | src/plcnext_iot/config/store.py:143-288 | in every run with reopens: at most one PREPARED row, newer than the active version; active is COMMITTED; tokens are unique; every APPLIED receipt names a COMMITTED version no newer than active |
| `ConfigTables.RunInv` | src/plcnext_iot/config/store.py:143-288 | every run keeps the invariant, never takes the active version back and never changes the content stored for a version or an applied receipt |
| `ConfigTables.PrepareRowInv` | src/plcnext_iot/config/store.py:216-256 | `_prepare` keeps the invariant on every branch |
| `ConfigTables.PreparePatchInv` | src/plcnext_iot/config/store.py:182-214 | `prepare_patch` keeps the invariant on every branch |
| `ConfigTables.CommitInv` | src/plcnext_iot/config/store.py:266-280 | `commit` keeps the invariant |
| `ConfigTables.FailInv` | src/plcnext_iot/config/store.py:282-289 | `fail` keeps the invariant |
| `ConfigTables.ReopenInv` | src/plcnext_iot/config/store.py:143-146 | recovery on reopen keeps the invariant and leaves nothing PREPARED |
| `ConfigTables.TokenDies` | src/plcnext_iot/config/store.py:282-289 | failing a candidate or reopening over it kills its token |
| `ConfigTables.DeadForever` | src/plcnext_iot/config/store.py:258-289 | a dead token is refused by `commit` and `fail` in every later state, with no effect |
| `ConfigTables.NoLostUpdate` | src/plcnext_iot/config/store.py:182-280 | if a token returned for a patch is committed after any run, the committed content is the patch applied to the snapshot active at that commit, which the patch named by version and message id |
| `ConfigTables.ExactReplay` | src/plcnext_iot/config/store.py:192-209 | once a patch's receipt is APPLIED the same bytes are answered APPLIED with the original version in every later state; nothing changes and the inconsistency error is not reached |
| `ConfigTables.CommitLeavesReceipt` | src/plcnext_iot/config/store.py:266-280 | committing a patch's candidate leaves exactly the receipt that replay relies on |
| `ConfigAnswers.PrepareRowExactly` | src/plcnext_iot/config/store.py:216-256 | why a candidate is refused, in order, without effect; at the active version it is applied and only its receipt written; else it waits alone under its own or a new token |
| `ConfigAnswers.RepeatIsApplied` | src/plcnext_iot/config/store.py:216-256 | the active configuration sent again, under its own id or a new one for which there is a place, is answered APPLIED and writes nothing but the receipt |
| `ConfigAnswers.PatchExactly` | src/plcnext_iot/config/store.py:182-214 | in which order a patch is judged: id, replay, version, base and operations, candidate |
| `ConfigAnswers.RefusedExactly` | src/plcnext_iot/config/patch.py:19-44 | another base is refused first, then the first operation that adds what is there or touches what is not, with its index, then an invalid result |
| `ConfigAnswers.CommitExactly` | src/plcnext_iot/config/store.py:258-280 | what a token commits, answers or is refused |
| `ConfigAnswers.FailExactly` | src/plcnext_iot/config/store.py:282-289 | what a token fails or is refused |
| `ConfigAnswers.ReopenExactly` | src/plcnext_iot/config/store.py:143-146 | what opening the database again interrupts and abandons, and that nothing else changes |
| `ConfigStore.ConfigStore.constructor` | src/plcnext_iot/config/store.py:51-71 | an empty store satisfies the invariant |
| `ConfigStore.ConfigStore.LoadActive` | src/plcnext_iot/config/store.py:165-172 | the committed active snapshot; the error for an active version without a committed row is unreachable |
| `ConfigStore.ConfigStore.Judge` | src/plcnext_iot/config/store.py:216-243 | the first refusal in the source's order of checks, or none |
| `ConfigStore.ConfigStore.PrepareRow` | src/plcnext_iot/config/store.py:216-256 | new tables and result are those of the specification |
| `ConfigStore.ConfigStore.Prepare` | src/plcnext_iot/config/store.py:174-180 | as specified, or a fault with nothing written |
| `ConfigStore.ConfigStore.PreparePatch` | src/plcnext_iot/config/store.py:182-214 | as specified, or a fault with nothing written |
| `ConfigStore.ConfigStore.Commit` | src/plcnext_iot/config/store.py:266-280 | as specified, or a fault with nothing written |
| `ConfigStore.ConfigStore.Fail` | src/plcnext_iot/config/store.py:282-289 | as specified, or a fault with nothing written |
| `ConfigStore.ConfigStore.Recover` | src/plcnext_iot/config/store.py:143-146 | interrupts every preparation, row by row and receipt by receipt |
| `DeviceRuntime.Runtime.Propose` | src/plcnext_iot/devices/runtime.py:75-95 | exactly the enabled devices with enabled points get a runner; unchanged execution keys keep theirs; runners are distinct, and each was made for just the protocol, connection and polls its device now has |
| `DeviceRuntime.PollsExactly` | src/plcnext_iot/devices/runtime.py:40-44 | what a runner is made to poll: one poll for each enabled point, with its acquisition settings, in the order of the points |
| `DeviceRuntime.KeyExactly` | src/plcnext_iot/devices/runtime.py:40-44 | two devices have the same execution key exactly if protocol, connection and polls are the same, whatever names, reporting settings and disabled points are |
| `DeviceRuntime.Runtime.Prepare` | src/plcnext_iot/devices/runtime.py:75-95 | a transition that is ready and gives each device a runner made for just what it says, its present one exactly if it is polled in the same way already; or null with the runtime unchanged |
| `DeviceRuntime.Transition.Activate` | src/plcnext_iot/devices/runtime.py:120-129 | on success exactly the proposed runners run; on any failure the transition can still be undone; only replaced and introduced runners are touched |
| `DeviceRuntime.Transition.Rollback` | src/plcnext_iot/devices/runtime.py:131-141 | on success exactly the old runners run again; only touched runners are stopped or started |
| `DeviceRuntime.Runtime.Publish` | src/plcnext_iot/devices/runtime.py:143-159 | runners, snapshot and managed set become the proposed ones, and samples of the new snapshot carry a new generation and publication time, unless it is the snapshot the process published last |
| `DeviceRuntime.Runtime.Shutdown` | src/plcnext_iot/devices/runtime.py:97-109 | what could be stopped is stopped and no longer managed, what could not stays managed; only when everything has stopped is nothing published, else runners and snapshot stay |
| `Lifecycle.AgentLifecycle.Apply` | src/plcnext_iot/core/lifecycle.py:155-233 | APPLIED leaves database, runtime and agent on one version and content; any other result outside FAILED leaves active version, snapshot, runners and running set as before; whatever the result, outside FAILED exactly the devices to be polled have a running runner made for what the active configuration says of them; a device polled before and after in the same way keeps its runner, neither stopped nor started; the candidate is what the request stands for; a rejected one has touched nothing; RUNTIME_VERSION_MISMATCH is unreachable |
| `Lifecycle.AgentLifecycle.Answer` | src/plcnext_iot/core/lifecycle.py:161-175 | a preparation that failed, was refused or had been applied before changes nothing but the agent's state; APPLIED then names the version that runs, and RUNTIME_VERSION_MISMATCH is unreachable |
| `Lifecycle.AgentLifecycle.Transit` | src/plcnext_iot/core/lifecycle.py:176-215 | the same for a prepared candidate, through runner and storage failures |
| `Lifecycle.AgentLifecycle.CommitAndPublish` | src/plcnext_iot/core/lifecycle.py:194-215 | commit, unknown outcomes and publication; UNEXPECTED_COMMITTED_VERSION is unreachable |
| `Lifecycle.AgentLifecycle.Restore` | src/plcnext_iot/core/lifecycle.py:217-233 | rollback and failure of the candidate, or FAILED |
| `Lifecycle.AgentLifecycle.Start` | src/plcnext_iot/core/lifecycle.py:83-99 | a started agent runs exactly the stored active configuration, and its runners poll what that says |
| `Lifecycle.KeptAreSpared` | src/plcnext_iot/devices/runtime.py:40-44 | a device whose execution key is unchanged keeps its runner untouched by the transition |
| `PlatformClockRuns.RunGood` | src/plcnext_iot/core/platform_time.py:88-348 | every run keeps the clock's invariant, and revisions, connections and (within one revision) UTC only grow |
| `PlatformClockRuns.UtcMonotone` | src/plcnext_iot/core/platform_time.py:140-172 | two valid readings with the same revision never run backward, whatever lies between |
| `PlatformClockRuns.SlewExact` | src/plcnext_iot/core/platform_time.py:140-152 | estimate plus residual moves exactly with the monotonic clock, at a rate between 0.995 and 1.005, and the residual only shrinks |
| `PlatformClockRuns.SlewRun` | src/plcnext_iot/core/platform_time.py:140-152 | the same over any number of readings |
| `PlatformClockRuns.TokenAbaFree` | src/plcnext_iot/core/platform_time.py:174-199 | a token issued with valid time and accepted later proves no reconnect and no loss of trust at any point between |
| `PlatformClockRuns.TokenRevokedForever` | src/plcnext_iot/core/platform_time.py:178-184 | a token behind a revision is refused in every later state |
| `PlatformClockRuns.TokenNeverAhead` | src/plcnext_iot/core/platform_time.py:174-184 | tokens never run ahead of the clock, so a mismatch is always of that kind |
| `PlatformClockGates.RunGates` | src/plcnext_iot/core/platform_time.py:88-123 | get-submitted implies heartbeat-submitted in every run; heartbeat-submitted implies a synchronised session in every run whose heartbeat marks do not straddle the end of validity |
| `PlatformClockGates.HeartbeatGatesExactly` | src/plcnext_iot/core/platform_time.py:201-215 | a heartbeat mark keeps the gates in order if and only if time is still valid at the second reading `require` takes |
| `PlatformClockGates.HeartbeatMaySlip` | src/plcnext_iot/core/platform_time.py:201-215 | on every clock that is one millisecond short of expiry it does not: marked as submitted in an expired, unsynchronised session |
| `PlatformClockGates.AlmostExpiredReached` | src/plcnext_iot/core/platform_time.py:253-348 | connecting, three exchanges and an idle hour lead from start-up to such a clock |
| `PlatformClockGates.GatesSlipFromStart` | src/plcnext_iot/core/platform_time.py:201-215 | such a session is reached from start-up, by a run given step by step |
| `PlatformClockGrants.GrantedExactly` | src/plcnext_iot/core/platform_time.py:178-207 | when a request is granted, purpose by purpose: which purposes need a token, valid time, a session, synchronisation, and both control messages; a token counts if it is of this boot, revision and connection and less than 2000 ms old |
| `PlatformClockGrants.SendRestsOn` | src/plcnext_iot/core/platform_time.py:178-215 | in every run from start-up on platform time: what may send had a valid reading, a synchronised session and a fresh token; telemetry moreover only after a granted heartbeat and, later, a granted request for the configuration, over the present connection, with no loss of trust since the latter, nor since the heartbeat unless that was granted in the very moment at which time ran out |
| `PlatformClockGrants.SendGranted` | src/plcnext_iot/core/platform_time.py:178-215 | conversely: with both granted in this order and neither connection nor trust lost since, every valid reading and fresh token may send |
| `PlatformClockGrants.StepLasts` | src/plcnext_iot/core/platform_time.py:88-348 | a mark never appears but by marking, survives only an unbroken connection and unbroken trust, and survives those |
| `PlatformClockSlips.SendAfterSlip` | src/plcnext_iot/core/platform_time.py:201-215 | the exception is real: a run, given step by step, in which telemetry is sent although trust was lost with the only heartbeat |
| `PlatformClockSoundness.TravelBound` | src/plcnext_iot/core/platform_time.py:329-339 | true hub time against the four timestamps of one exchange, for non-negative delays and bounded drift |
| `PlatformClockSoundness.CandidateNear` | src/plcnext_iot/core/platform_time.py:337-344 | a collected candidate is within its stated error of true hub time |
| `PlatformClockSoundness.RunSound` | src/plcnext_iot/core/platform_time.py:227-348 | every round, adoption, slew and invalidation keeps the estimate within its bound of true hub time |
| `PlatformClockSoundness.ReadingEncloses` | src/plcnext_iot/core/platform_time.py:154-172 | a valid reading's interval contains true hub time, rounding included |
| `PlatformClockSoundness.ClockIntervalSound` | src/plcnext_iot/core/platform_time.py:140-348 | in every honest run every valid snapshot's [utc - error, utc + error] contains true hub time |
| `PlatformClockRounds.WithinSecond` | src/plcnext_iot/core/platform_time.py:154-172 | in every honest run a valid reading is less than a second from true hub time and rests on a synchronisation less than an hour old |
| `PlatformClockRounds.ValidExactly` | src/plcnext_iot/core/platform_time.py:154-172 | a reading is valid exactly if the monotonic clock has not run back, trust is there, the last synchronisation is less than an hour old, and the estimate with its error is below a second and representable |
| `PlatformClockRounds.StateExactly` | src/plcnext_iot/core/platform_time.py:160-165 | synchronised, holding over or expired, by validity and session, with a revision for every loss of trust |
| `PlatformClockRounds.FinishExactly` | src/plcnext_iot/core/platform_time.py:227-251 | a round whose candidates agree within 500 ms adopts the first of the shortest paths, of all if there are three, else of those within 500 ms; every other is given up |
| `PlatformClockRounds.AdoptExactly` | src/plcnext_iot/core/platform_time.py:253-280 | below the floor or on a confirmed step backwards: maintenance; more than a second away for the first time: suspicion; else synchronised on the target, by slewing under the same revision where the clock was trusted and near, by a new estimate under a new revision elsewhere |
| `PlatformClockRounds.GiveUpExactly` | src/plcnext_iot/core/platform_time.py:243-251 | after a failed round the next waits 5, 10, 20, 40 and then 60 seconds, times the jitter, at most a minute |
| `PlatformClockRounds.ResponseExactly` | src/plcnext_iot/core/platform_time.py:311-348 | which responses are ignored, which end their request, and which are measurements, with the value and error of each |
| `PlatformClockRounds.RequestOnly` | src/plcnext_iot/core/platform_time.py:282-309 | a request goes out only on platform time, in a session, when due, not beside a younger one of its round, at most ten in thirty seconds |
| `PlatformClockRounds.RequestExactly` | src/plcnext_iot/core/platform_time.py:282-309 | what asking does, once its reading is taken: nothing, judge the round (thirty seconds old, or its tenth request over), wait for a request in flight, make the next one, or open a new round with its first |
| `PlatformClockRounds.RequestSynced` | src/plcnext_iot/core/platform_time.py:253-309 | a request synchronises a session only by adopting a round in it at that moment |
| `PlatformClockRounds.InvalidateExactly` | src/plcnext_iot/core/platform_time.py:95-101 | leaving trust closes every gate and costs a revision, or raises if there is none |
| `PlatformClockRounds.BoundaryExactly` | src/plcnext_iot/core/platform_time.py:129-138 | a stored boundary only raises the floor, and puts a clock that may be below it, or is of another basis, under maintenance |
| `PlatformTime.PlatformTime.BumpRevision` | src/plcnext_iot/core/platform_time.py:88-93 | new clock state and result equal the specification: revision and generation grow by one, or the exhaustion error |
| `PlatformTime.PlatformTime.Invalidate` | src/plcnext_iot/core/platform_time.py:95-101 | new clock state and result equal the specification: a trusted state is left with a new revision and closed gates |
| `PlatformTime.PlatformTime.Connect` | src/plcnext_iot/core/platform_time.py:103-117 | one more step of the object's run, equal to the specification: new connection revision, gates closed, round discarded |
| `PlatformTime.PlatformTime.Disconnect` | src/plcnext_iot/core/platform_time.py:119-123 | one more step of the object's run, equal to the specification: as connect, with no session |
| `PlatformTime.PlatformTime.LoadHistoryBoundary` | src/plcnext_iot/core/platform_time.py:129-138 | one more step of the object's run, equal to the specification: floor raised, or maintenance |
| `PlatformTime.PlatformTime.RequireMaintenance` | src/plcnext_iot/core/platform_time.py:125-127 | one more step of the object's run, equal to the specification: trust is given up until the next synchronisation |
| `PlatformTime.PlatformTime.Advance` | src/plcnext_iot/core/platform_time.py:140-152 | new clock state and result equal the specification: slew, or maintenance on a decreasing monotonic source |
| `PlatformTime.PlatformTime.Read` | src/plcnext_iot/core/platform_time.py:154-172 | new clock state, reading and result equal the specification, through validity, expiry and exhaustion |
| `PlatformTime.PlatformTime.TakeReading` | src/plcnext_iot/core/platform_time.py:154-172 | one more step of the object's run; if its run was honest a valid reading encloses hub time at every instant of its millisecond, and no earlier valid reading of the same revision was ahead of it; validity, expiry and state as specified |
| `PlatformTime.PlatformTime.Accepted` | src/plcnext_iot/core/platform_time.py:178-199 | exactly what the purpose asks of token, reading, session and marks |
| `PlatformTime.PlatformTime.Require` | src/plcnext_iot/core/platform_time.py:201-207 | one more step of the object's run, granted exactly when token, first reading, session and marks suffice for the purpose and no reading runs out of revisions; a granted request to send tells that the run holds a granted heartbeat and then a granted request for the configuration |
| `PlatformTime.PlatformTime.ControlSubmitted` | src/plcnext_iot/core/platform_time.py:209-215 | one more step of the object's run, equal to the specification: the marks, under `require` |
| `PlatformTime.PlatformTime.FinishRound` | src/plcnext_iot/core/platform_time.py:227-251 | new clock state and result equal the specification: consistency test, choice of the shortest path, or back-off |
| `PlatformTime.PlatformTime.Adopt` | src/plcnext_iot/core/platform_time.py:253-280 | new clock state and result equal the specification: floor, discontinuity, step or slew |
| `PlatformTime.PlatformTime.MakeRequest` | src/plcnext_iot/core/platform_time.py:282-309 | one more step of the object's run, equal to the specification: round bookkeeping and the next request |
| `PlatformTime.PlatformTime.TakeResponse` | src/plcnext_iot/core/platform_time.py:311-348 | one more step of the object's run, equal to the specification: the checks in order, the candidate, and the end of a full round |
| `OutboxRuns.StepDurable` | src/plcnext_iot/storage/outbox.py:133-287 | every step, a reopening under a living session included, keeps the write-ahead mirror: entries equal rows in key, order, hash, size, attempts, state, cause; whatever was handed out and is stored has attempts of at least 1; orders are distinct |
| `OutboxRuns.RestartDurable` | src/plcnext_iot/storage/outbox_session.py:70-95 | rebuilding a session from the tables keeps it |
| `OutboxRuns.ReattachSame` | src/plcnext_iot/storage/outbox_session.py:70-95 | opening the tables again under a living session that mirrors them is never refused and changes nothing: no entry differs from its row, none is missing, none is restored |
| `OutboxBounds.StepBounded` | src/plcnext_iot/storage/outbox.py:118-150 | every step keeps at most 8 batches in flight and the batch, byte and DEAD quotas |
| `OutboxBounds.NoEighthSlot` | src/plcnext_iot/storage/outbox.py:200-220 | a reservation takes at most its class's seventh slot |
| `OutboxPacing.ReservePaced` | src/plcnext_iot/storage/outbox.py:191-247 | a reservation keeps the log paced: 0.25 s apart, at most 4 and 512 KiB in any second, retries after 30 s and 60 s |
| `OutboxPacing.StepPaced` | src/plcnext_iot/storage/outbox.py:191-287 | every step keeps it: gate openings, SDK rejections, acknowledgements, expiry, and opening the tables again while the process lives; a new process starts a log of its own |
| `OutboxPacing.MoreAtMostWindow` | src/plcnext_iot/storage/outbox.py:232-233 | the bytes of any one-second window stay within 512 KiB |
| `OutboxPacing.FairTurn` | src/plcnext_iot/storage/outbox.py:218-226 | the lowest order of its class is served, and a class twice in a row only when the other has nothing to send |
| `OutboxTheorems.ReachableGood` | src/plcnext_iot/storage/outbox.py:93-287 | in every reachable state, over crashes and failing calls: mirror, write-ahead, quotas, pacing and true age all hold |
| `OutboxTheorems.LateAckCorrelates` | src/plcnext_iot/storage/outbox.py:256-262 | an acknowledgement for a batch ever handed out still correlates while its row exists, across any number of crashes |
| `OutboxTheorems.ReservationsFair` | src/plcnext_iot/storage/outbox.py:200-247 | fairness, order and slots for every reservation in every reachable state |
| `OutboxTheorems.ExpiredIsWeekOld` | src/plcnext_iot/storage/outbox.py:104-113 | with enclosing stamps, a lower age of seven days means a true age of at least seven days |
| `OutboxTheorems.AgeExpiredSound` | src/plcnext_iot/storage/outbox.py:93-116 | a batch stamped and expired by honestly synchronised clocks, of one or two processes, was seven days old by true hub time |
| `OutboxTheorems.ReadingIsSound` | src/plcnext_iot/core/platform_time.py:154-172 | a valid reading of an honest clock is an enclosing stamp |
| `OutboxStores.OldestDead` | src/plcnext_iot/storage/outbox.py:118-120 | exactly the oldest dead rows beyond the DEAD quota |
| `OutboxStores.Eligibles` | src/plcnext_iot/storage/outbox.py:207-220 | exactly the entries of a class that may be sent; none for a class with seven slots |
| `OutboxStores.ReadDue` | src/plcnext_iot/storage/outbox.py:207-217 | hub time is read anew for each entry that is due and for no other; a refused reading ends the call |
| `OutboxStores.PickNext` | src/plcnext_iot/storage/outbox.py:221-226 | the entry the turn, class and order single out, told in plain terms, or none if there is none |
| `OutboxRules.NextExactly` | src/plcnext_iot/storage/outbox.py:205-226 | the batch served: pending, not in flight, due, of the present time basis and not more than five minutes ahead, of a class with fewer than seven in flight, of the class whose turn it is unless that has nothing to send, and of the lowest order |
| `OutboxRules.ReserveExactly` | src/plcnext_iot/storage/outbox.py:191-233 | a batch may go exactly if the last went a quarter of a second ago, fewer than four and with it no more than 512 KiB go within the second, fewer than eight are in flight, and it is the one served |
| `OutboxRules.HandedExactly` | src/plcnext_iot/storage/outbox.py:236-245 | an attempt is in flight for 30 s if it is the first, else for 60 s, and is counted |
| `OutboxRules.RateExactly` | src/plcnext_iot/storage/outbox.py:196-197 | exactly the reservations a second old are forgotten |
| `OutboxRules.FlightExactly` | src/plcnext_iot/storage/outbox.py:201-203 | a batch is in flight until its deadline and no longer |
| `OutboxRules.RetryExactly` | src/plcnext_iot/storage/outbox.py:280-284 | a refusal is retried exactly if it has codes and each is UNKNOWN_CONFIG_VERSION, RESOURCE_LIMIT or STORAGE_ERROR |
| `OutboxRules.ConfirmsExactly` | src/plcnext_iot/storage/outbox.py:256-278 | a confirmation counts exactly for a batch that was handed out, unless it was rejected for good or died of age with no attempt standing |
| `OutboxRules.ExpiredExactly` | src/plcnext_iot/storage/outbox.py:104-113 | a batch is expired exactly if it is pending, not in flight, and by two readings of one basis certainly seven days old |
| `OutboxRules.RestartExactly` | src/plcnext_iot/storage/outbox_session.py:70-95 | what a new process makes of each row: history of unknown events, at once or, if it was ever handed out, in a minute and counted as sent |
| `OutboxStores.Rebuild` | src/plcnext_iot/storage/outbox_session.py:70-95 | the entries of a process that inserted none of the rows, or refusal when metadata does not fit |
| `OutboxStores.FirstOnlyMeans` | src/plcnext_iot/storage/outbox.py:280 | removing repetitions loses no code, leaves none twice, keeps their order and does not change whether the batch is retried |
| `OutboxStores.Distinctly` | src/plcnext_iot/storage/outbox.py:280 | the error codes without repetitions, each where it came first |
| `OutboxStores.OutboxStore.Terminal` | src/plcnext_iot/storage/outbox.py:118-131 | one transaction: dead with its cause, oldest dead pruned; or nothing |
| `OutboxStores.OutboxStore.Expire` | src/plcnext_iot/storage/outbox.py:93-116 | only age-expiry steps, after which no entry is overdue: certainly seven days old, pending and not in flight; a failing transaction ends the call and is not taken |
| `OutboxStores.OutboxStore.Enqueue` | src/plcnext_iot/storage/outbox.py:133-189 | a permitted run of steps, under any message id, used before or not; each result with exactly its cause (stored bytes, identity conflict, quota, failure) |
| `OutboxStores.OutboxStore.Stage` | src/plcnext_iot/storage/outbox_session.py:60-68 | bounded staging, as history exactly if no event is newer than the watermark; an entry staged by a failed attempt is used again |
| `OutboxStores.OutboxStore.Reserve` | src/plcnext_iot/storage/outbox.py:191-247 | a permitted run of steps, with a reading of hub time for each entry that is due; a payload is the stored bytes of the served entry, and nothing is returned only when no reservation is permitted |
| `OutboxStores.OutboxStore.Choose` | src/plcnext_iot/storage/outbox.py:200-247 | the attempt is counted durably before the payload is handed out; the corrupt-batch error is unreachable |
| `OutboxStores.OutboxStore.SubmissionFailed` | src/plcnext_iot/storage/outbox.py:249-254 | the attempt was not sent; its deadline stays |
| `OutboxStores.OutboxStore.Acknowledge` | src/plcnext_iot/storage/outbox.py:256-287 | removed, postponed by a minute, isolated under its distinct codes, or ignored, with exactly the condition of each and the codes named |
| `OutboxStores.OutboxStore.OpenGate` | src/plcnext_iot/storage/outbox_session.py:97-100 | everything known becomes history |
| `OutboxStores.OutboxStore.Attach` | src/plcnext_iot/storage/outbox_session.py:70-95 | a new process's session is a restart step of the same run, refused only for want of metadata; the quota errors on opening are unreachable |
| `OutboxStores.OutboxStore.Reopen` | src/plcnext_iot/storage/outbox_session.py:70-95 | opening under a living session is a step of the same run that changes neither rows nor session; the identity conflict, the restoring of unknown rows and the error for vanished records are unreachable |
| `Receiver.ReceptionSound` | src/plcnext_iot/storage/receiver.py:35-82 | STORED is answered only when the table then holds exactly these bytes; any other answer changes nothing; no receipt is changed, removed or doubled; quotas hold |
| `Receiver.RedeliveryStored` | src/plcnext_iot/storage/receiver.py:50-53 | redelivered bytes are answered STORED and store nothing, whatever configurations, clock and quotas have become |
| `Receiver.ReceiverStore.Receive` | src/plcnext_iot/storage/receiver.py:35-82 | receipts and answer equal the specification, check by check |
| `Receiver.ReceiverStore.InstallConfig` | src/plcnext_iot/storage/receiver.py:21-33 | a version keeps the content first installed for it; what is installed never exceeds 32 versions or 64 MiB, and is refused only where it would |
| `Receiver.InstallShelved` | src/plcnext_iot/storage/receiver.py:21-33 | the guard of one installation keeps the summed size of all installed texts within 64 MiB |
| `Delivery.EndToEnd` | src/plcnext_iot/storage/outbox.py:256-278 | in every run with loss, repetition, reordering, crashes and failing stores, in which no message id is used for two texts: whatever the outbox deleted on STORED the receiver holds byte for byte, and no id has two receipts |
| `Delivery.ReceivedBeforeDeleted` | src/plcnext_iot/storage/receiver.py:35-82 | at the moment of each deletion the receipt with exactly the row's bytes is already there |
| `Delivery.NoConflict` | src/plcnext_iot/storage/receiver.py:50-53 | an id that is stored is stored with the bytes that arrive, so VERSION_CONFLICT is never answered |
| `Delivery.EvolveLinked` | src/plcnext_iot/storage/outbox.py:256-287 | what links the two ends is kept by every event |
| `DeliveryRefusals.StoredExactly` | src/plcnext_iot/storage/receiver.py:35-82 | STORED is answered exactly if text and transaction are in order and the id is held with these very bytes or, being new, its configuration is readable, every value known and timely, and there is room |
| `DeliveryRefusals.ReasonExactly` | src/plcnext_iot/storage/receiver.py:35-82 | which code a refusal carries: the first reason in order |
| `DeliveryRefusals.IsolatesExactly` | src/plcnext_iot/storage/outbox.py:279-287 | the outbox tries again exactly after a refusal that may pass (failure, version missing or unreadable, no room), and isolates only after one that stands: without failure, with every quota, the same text is refused under the same configurations at the same time |
| `DeliveryRefusals.AnsweredExactly` | src/plcnext_iot/storage/outbox.py:279-287 | in every run, however late the answer is acted on |
| `DeliveryRefusals.IsolatedForGood` | src/plcnext_iot/storage/outbox.py:279-287 | every batch that is isolated was refused, at an arrival of the run, for a reason that stands |
| `EngineMemory.CommitKept` | src/plcnext_iot/reporting/engine.py:241-271 | committing a batch changes nothing that selection can see |
| `EngineMemory.CommitSpotOk` | src/plcnext_iot/reporting/engine.py:241-271 | the newest of shadow and baseline survives the release of any owned sample |
| `EngineMemory.RememberKept` | src/plcnext_iot/reporting/engine.py:184-190 | an admitted sample becomes the newest of its point |
| `EngineSelection.OfferRecall` | src/plcnext_iot/reporting/engine.py:119-190 | one `accept` selects as the one-sample reference does and leaves what it would recall |
| `EngineSelection.SelectionRefines` | src/plcnext_iot/reporting/engine.py:104-190 | along every run between configurations in which no epoch opens again over its own events, each offer is selected as by a memory of the last admitted sample of the point's epoch and its grid, whatever is frozen and committed meanwhile |
| `EngineSelection.RunKept` | src/plcnext_iot/reporting/engine.py:80-284 | every point's newest sample stays in order in every reachable state, across configurations, checkpoints and giving up |
| `EngineSelection.OffersPermitted` | src/plcnext_iot/reporting/engine.py:119-141 | all these runs ask of ingress: sample numbers increase, and an epoch is the point's current one or new to it; with or without a checkpoint to start from |
| `EngineAnswers.SelectionAnswers` | src/plcnext_iot/reporting/engine.py:119-190 | along every run between configurations each sample gets the answer that the samples and answers before it demand, in plain terms: out of place, malformed, stale, a bad slot, filtered, without time, or selected. Filtered means: no point of the report grid beyond all slots polled is reached, and the last admitted sample of the epoch exists, has the same quality, and, where the quality is GOOD and changes are reported, is a number no further than the deadband above or below, or else the same value |
| `EngineAnswers.ConfigurationAnswers` | src/plcnext_iot/reporting/engine.py:80-190 | so it is under every configuration in the life of a process, starting from what its checkpoint remembers |
| `EngineAnswers.FilteredIsNear` | src/plcnext_iot/reporting/engine.py:152-157 | a filtered GOOD number of a point that reports changes is never more than the deadband, in either direction, from the last admitted sample of its epoch; and that one is the last the story admits |
| `EngineAnswers.AcceptAnswersNow` | src/plcnext_iot/reporting/engine.py:119-190 | the same answer in terms of the engine's own memory: against the newer of owned and committed sample, and the next slot |
| `EngineAnswers.RoomExactly` | src/plcnext_iot/reporting/engine.py:108-111 | of the selected samples with a time exactly those are turned away that exceed the capacity or would touch the bytes kept for batches, an eighth or 2 MiB; of the others exactly those are admitted whose decision was awaited |
| `EngineAnswers.ShownExactly` | src/plcnext_iot/reporting/engine.py:143-148 | the latest view takes each sample looked at if it fits beside the rest, else shows nothing of the point; a sample not looked at changes nothing |
| `EngineAnswers.AdmittedWaits` | src/plcnext_iot/reporting/engine.py:182-190 | an admitted sample is owned and waits last in the queue its number and the watermark choose, with the point limit of its configuration; nothing else moves the stock |
| `EngineSelection.PollOnGrid` | src/plcnext_iot/reporting/engine.py:158-168 | a poll keeps due = origin + interval x (triggers + missed), beyond every slot processed |
| `EngineSelection.EngineOnGrid` | src/plcnext_iot/reporting/engine.py:158-168 | so does every run from a new configuration on |
| `EngineSelection.RunOk` | src/plcnext_iot/reporting/engine.py:66-284 | in every reachable state owned events are the disjoint union of both queues and the frozen batches, at most eight batches are frozen, and retained bytes fit |
| `EngineStock.CutLongest` | src/plcnext_iot/reporting/engine.py:208-217 | what is frozen is the longest admissible prefix: distinct points, one version, every point limit, 131072 bytes |
| `EngineStock.FreezeOk` | src/plcnext_iot/reporting/engine.py:218-238 | freezing moves exactly that prefix and leaves earlier batches alone |
| `EngineStock.FreezeFair` | src/plcnext_iot/reporting/engine.py:199-206 | freezing gives no class an eighth slot, and a class the next turn again only when the other has no event or no slot |
| `EngineBatches.NextClassExactly` | src/plcnext_iot/reporting/engine.py:199-206 | the class whose turn it is, if it has an event and fewer than seven frozen batches, else the other if that has |
| `EngineBatches.FreezeExactly` | src/plcnext_iot/reporting/engine.py:207-238 | a frozen batch holds the first events of its queue in order, their version, the next number and the text of just these; the rest waits on |
| `EngineBatches.GateExactly` | src/plcnext_iot/reporting/engine.py:113-117 | everything waiting becomes history, the new behind the old, and so do the frozen batches |
| `EngineBatches.ConfiguredExactly` | src/plcnext_iot/reporting/engine.py:80-102 | a configuration starts from the checkpoint exactly if that was made under the same snapshot and generation, else from nothing; owned events stay |
| `EngineStock.DroppedOk` | src/plcnext_iot/reporting/engine.py:255-271 | a committed batch takes exactly its events out of ownership |
| `EngineRuns.StepOk` | src/plcnext_iot/reporting/engine.py:80-284 | every step keeps ownership, identities, memory and bytes |
| `EngineRuns.StepKept` | src/plcnext_iot/reporting/engine.py:80-284 | every step keeps each point's newest sample in order, as long as no epoch opens again over events still owned |
| `EngineRuns.CheckpointCarried` | src/plcnext_iot/reporting/engine.py:80-102 | what a running engine leaves as a checkpoint is fit to start the next engine of the process from |
| `EngineLedger.RetainExact` | src/plcnext_iot/reporting/engine.py:66-71 | each reference count is the number of places that name the sample, and the total their charges, after retaining |
| `EngineLedger.ForgetExact` | src/plcnext_iot/reporting/engine.py:73-78 | the same after forgetting |
| `EngineLedger.ExactUsed` | src/plcnext_iot/reporting/engine.py:66-78 | the running total is the sum over the retained samples and frozen batches |
| `ReportEngines.LongestPrefix` | src/plcnext_iot/reporting/engine.py:208-217 | the scanning loop with its running set, size and limit finds the specified cut |
| `ReportEngines.ReportEngine.Accept` | src/plcnext_iot/reporting/engine.py:119-190 | state and verdict equal the specification, and the verdict is the one that memory, deadband, grid and place of the sample demand in plain terms, for every sample not offered before; counts and bytes stay exact |
| `ReportEngines.ReportEngine.Compare` | src/plcnext_iot/reporting/engine.py:149-168 | chosen exactly if the sample differs from the newer of owned and committed by quality, by more than the deadband in either direction, or by value, or if it reaches the next slot; and the grid is moved on |
| `ReportEngines.ReportEngine.Prepare` | src/plcnext_iot/reporting/engine.py:192-239 | earlier frozen batches first and unchanged, at most eight, and it stops only at eight, with no class open, or for want of bytes |
| `ReportEngines.ReportEngine.Fill` | src/plcnext_iot/reporting/engine.py:199-239 | the loop: eight batches wait at most, and it ends only at eight, with no class open, or when a batch does not fit |
| `ReportEngines.ReportEngine.FreezeOne` | src/plcnext_iot/reporting/engine.py:207-238 | one batch, or a sequence number used up because text or bytes do not fit |
| `ReportEngines.ReportEngine.Committed` | src/plcnext_iot/reporting/engine.py:255-271 | events released one by one equal the specified commit; an unknown batch is ignored |
| `ReportEngines.ReportEngine.CommitSample` | src/plcnext_iot/reporting/engine.py:241-271 | baseline, owner and shadow of one sample |
| `ReportEngines.ReportEngine.Configure` | src/plcnext_iot/reporting/engine.py:80-102 | latest view and baselines replaced by those of the checkpoint made under the same configuration, if there is one, in any reachable state; owned events kept |
| `ReportEngines.ReportEngine.OpenGate` | src/plcnext_iot/reporting/engine.py:113-117 | everything waiting becomes history |
| `ReportEngines.ReportEngine.Abandon` | src/plcnext_iot/reporting/engine.py:273-284 | everything owned is given up and counted |
| `Accounts.CapturedBalanced` | src/plcnext_iot/reporting/accounting.py:86-101 | capturing keeps both balances |
| `Accounts.DecidedBalanced` | src/plcnext_iot/reporting/accounting.py:115-135 | a decision, or its loss, keeps both balances |
| `Accounts.TerminalBalanced` | src/plcnext_iot/reporting/accounting.py:191-203 | a dead batch moves its events from pending to exactly one fate |
| `Accounts.RemovedBalanced` | src/plcnext_iot/reporting/accounting.py:205-220 | a confirmation counts once, a late one takes the uncertain count back |
| `Accounts.Accounting.NoteCaptured` | src/plcnext_iot/reporting/accounting.py:86-101 | the whole new account: counter, pending decision and trimming |
| `Accounts.Accounting.NoteUndecided` | src/plcnext_iot/reporting/accounting.py:115-122 | the whole new account: only a pending decision is lost |
| `Accounts.Accounting.NoteDecided` | src/plcnext_iot/reporting/accounting.py:124-135 | the whole new account: only a pending decision is taken |
| `Accounts.Accounting.NoteMaterialized` | src/plcnext_iot/reporting/accounting.py:171-179 | the whole new account: one more pending batch, unless 64 are frozen |
| `Accounts.Accounting.NoteCommitted` | src/plcnext_iot/reporting/accounting.py:181-189 | the whole new account: a frozen batch stays one pending batch |
| `Accounts.Accounting.NoteTerminal` | src/plcnext_iot/reporting/accounting.py:191-203 | the whole new account: pending to dead, and own events to isolated, uncertain or known unsent by cause and by what was sent |
| `Accounts.Accounting.NoteRemoved` | src/plcnext_iot/reporting/accounting.py:205-220 | the whole new account: gauges, and counters on confirmation |
| `Accounts.Accounting.NoteRestored` | src/plcnext_iot/reporting/accounting.py:161-169 | the whole new account: a batch of unknown events |
| `Accounts.Accounting.NoteAbandoned` | src/plcnext_iot/reporting/accounting.py:222-230 | the whole new account: pending to known unsent, frozen batches gone |
| `PipelineRam.GiveRam` | src/plcnext_iot/reporting/service.py:128-142 | handing a batch over takes exactly its events out of RAM |
| `PipelineRam.SettleRam` | src/plcnext_iot/reporting/service.py:140-142 | letting go of a batch that was handed over leaves RAM as it is |
| `PipelineGauges.CommittedExact` | src/plcnext_iot/reporting/accounting.py:181-189 | a durable batch changes the batch gauges and leaves the event gauge |
| `PipelineGauges.TerminalExact` | src/plcnext_iot/reporting/accounting.py:191-203 | gauges follow an entry that is declared dead |
| `PipelineGauges.RemovedAllExact` | src/plcnext_iot/reporting/accounting.py:205-220 | gauges follow entries that are pruned |
| `Pipeline.OfferIsEvent` | src/plcnext_iot/reporting/engine.py:119-190 | every verdict of the engine is a possible event of the pipeline with the same effect on ownership; a stale sample leaves account and awaited decisions as they are, every other verdict takes the awaited decision |
| `Pipeline.FindsOwn` | src/plcnext_iot/reporting/accounting.py:181-189 | the lookup by message id finds exactly the frozen batch that is being handed over |
| `Pipeline.ReloadSame` | src/plcnext_iot/reporting/service.py:32-42 | a new pipeline of the same process over the living session changes neither outbox nor account, and restores no batch |
| `Pipeline.NextOk` | src/plcnext_iot/reporting/service.py:112-142 | every event, reloads and crashes included, keeps balances, gauges, ownership, the filing of frozen batches and the outbox mirror |
| `Pipeline.EventConservation` | src/plcnext_iot/reporting/accounting.py:86-230 | in every reachable state: captured = eligible + filtered + undecidedLost + awaited; eligible = pending + knownUnsent + isolated + uncertain + (stored - lateStored); pending = own events in PENDING entries + events in RAM that no entry holds; pending batches = PENDING entries + frozen batches not yet handed over, which are exactly the at most eight that accounting has on file; every other gauge is the sum over the entries |
| `PipelineFates.FatesExact` | src/plcnext_iot/reporting/accounting.py:86-230 | in every reachable state, while no counter has saturated, each counter is the number of events that the run of this process brought to that fate: an event is known unsent if it was refused admission, given up in RAM, or died of age in a batch with no hand-out left standing; uncertain if one stands, that is, was not undone by the SDK before the next; isolated if permanently rejected; stored and late as confirmed |
| `PipelineFates.UnsentIsUnpublished` | src/plcnext_iot/reporting/accounting.py:191-203 | no event is counted known unsent by age while a hand-out of its batch stands: each was undone |
| `PipelineFates.StandingMore` | src/plcnext_iot/storage/outbox.py:234-254 | what a further hand-out, or its undoing, does to what stands |
| `PipelineFates.AnswerCounts` | src/plcnext_iot/reporting/accounting.py:115-135 | which counter each answer of the engine adds to |
| `PipelineReadings.GaugesExactly` | src/plcnext_iot/reporting/accounting.py:161-252 | in every reachable state each gauge is a plain count: of batches, of events by their place, of bytes |

## Left out

- OutboxRuns.RestartDurable: one monotonic reading serves all entries that a new process restores, where the code reads the clock for each.
- ReportEngines.ReportEngine.Accept: assumes that each captured event is offered once; increasing sample numbers are enough (`EngineSelection.OffersPermitted`).
- Pipeline.EventConservation: giving up RAM is an event only while no enqueue is in progress, as `abandon` demands; each frozen batch has a message id of its own and is handed over until the outbox has accepted it once.
- Delivery.EndToEnd: a message id is not used again for another text, and no acknowledgement or message is forged; the receiver's own reopening has no volatile state to lose.
- PlatformClockGates.RunGates: the last implication is limited to runs without the window described under Findings.
- PlatformClockGrants.SendRestsOn: of a heartbeat granted in the very moment at which time ran out only the connection is said to have lasted, because trust did not.
- EngineSelection.SelectionRefines: covers runs between two configurations, in which no epoch opens again while events of it are still owned; a new configuration starts comparisons afresh or from its checkpoint.
- Counters of the engine and session that only repeat accounting's, and accounting's gap records, audit records and metadata sizes beyond the fact that trimming clears the pending decisions and latches their incompleteness.
- The diagnostic `reason` texts, generation start times and capture times of the clock.
- Rows written by earlier formats, damaged rows and their error paths: tables hold what was written to them.
- The SDK-side rate window of `send_loop`, which repeats the outbox's pacing at the hand-off to MQTT.
- MQTT, Modbus and OPC UA clients, JSON schemas, SQLite files and locks, asyncio plumbing, web provisioning and packaging.
- Rounding of floating-point numbers.
