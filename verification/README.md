# Tidewaiter, verified

Tidewaiter keeps systemd units (whose program lives in a Nix profile) and Docker containers on the version they should
be on, swapping one only when nobody is on it, trusting a swap only once a health gate said so, and taking it back
otherwise. This project models the parts of it where a mistake is expensive, and proves what they are for.

- `Machine.dfy`, `UnitSource.dfy`, with `Profiles.dfy` and `Memory.dfy`: the crash-safe swap of a unit. The machine (state
  file, profile, closure drop-in, unit) outlives Tidewaiter; every outside call may be refused, and Tidewaiter may die with
  any of them, before or after the call took effect (`Ran` is `Crashed` then, and everything above it stops at once). A
  saved memory may fail to be saved. Unit states, restart outcomes and gate verdicts are arbitrary. `Machine.Sound` is
  what holds at every one of those moments, over any number of lives; `Source.Core` and `Source.Valid` are what the
  source adds to it while it lives. The machine itself notes what its looks, reads, restarts and gates brought, and a
  restart needs a reason in that (`Justified`). `keep` is what every pruning keeps at least, 0 saying nothing of it.
  `stranded` is set exactly where the code asks for a person because an undo or a rollback could not be carried through;
  from then on only the numbering of generations and the reasons for restarts are still promised.
- `ImageMerge.dfy`: telling a container's own settings from its image's, against Docker's merge of the two.
- `CreateBody.dfy`: the request that recreates a container.
- `ContainerSwap.dfy`: the container swap and its undo, over a world of named containers where any call may fail.
- `RestartWait.dfy`: waiting for a restart job over D-Bus, in every interleaving of replies, signals and a lost bus.
- `Daemon.dfy`: passes, ticks and the automatic reboot, interleaved.
- `HealthGate.dfy`: the gate, its timing, and the uptime check's grace.
- `Versions.dfy`: the order of Engine API versions, the choice of one, and the one retry.
- `Decide.dfy`, `Wrappers.dfy`: the update decision both sources share, and small datatypes.

Where the code and its comments differ, the model follows the code. It shows four things that the comments do not say.

- A swap cut short between its pruning and the save that ends it, with the unit stopped by hand before Tidewaiter is back, is
  retried at every pass and never put back if the generation it left is gone (`NeverPutBack`), and that can happen with nothing
  refused and `keepGenerations` at its default of 1 (`LeftGenerationPruned`). It is gone exactly if, before the swap, at least
  `keepGenerations` generations were newer than the one it left (`CommitKeepsTheGenerationLeft`); if fewer were than any pass
  keeps, and nothing is refused, an interrupted swap is brought to its end (`SwapAndRecover`).
- The good generation can be pruned the same way, and a failed unit then has nothing to be rolled back to
  (`GoodGenerationPruned`). It is not in a safe past, and a past stays safe until a save is refused or a swap is recorded that
  leaves no generation, or has at least as many newer than the good one as every pass keeps (`Once`, `Lives`).
- A version pinned out can lose its pin, while it stays desired, to a first look that rolls back a unit failed on another
  version, and is swapped to again (`PinLost`). It keeps it exactly otherwise (`PinnedLife`).
- A container whose healthcheck sets nothing that its image does not loses the fields of it that are not known, too
  (`HealthcheckSent`).

## Model

| member | source | states |
|---|---|---|
| Decide.UpdateExactlyWhen | internal/decide/decide.go:140-162 | An update is decided exactly for a workload elsewhere than desired, idle for its samples and not pinned out of the desired version. |
| Profiles.NextGeneration | internal/systemd/fake_systemd_test.go:228-234 | A new generation is one past the highest there is. |
| Profiles.SetSwitchDeleteIsIdentity | internal/systemd/source.go:547-564 | Setting a profile, switching back and deleting what was left gives the very same profile, generations and current one. |
| Profiles.BackFromNewest | internal/systemd/source.go:543-564 | Gone back from a new generation, the profile is what it was, but for that generation if its deletion was refused. |
| Profiles.PruneKeepsTheGenerationLeft | internal/systemd/fake_systemd_test.go:255-269 | After a swap prunes, the generation it left survives exactly if fewer than `keep` were newer, so always with `keep` 1 or more and nothing lying about. |
| Memory.FailuresAddUp | internal/systemd/source.go:568-580 | Whatever was remembered before, step failures on one target add up, and pin it exactly from the third in a row. |
| Machines.Machine.Save | internal/systemd/source.go:902-913 | A save is all or nothing, at a crash too, and needs a memory that may be on disk: no ungated good generation, no missing record while the profile is on an ungated one, and nothing pinned out while a swap is on record. |
| Machines.Machine.Set | internal/systemd/fake_systemd_test.go:215-238 | One new generation on the target, all others kept; a swap's needs its record on disk first. |
| Machines.Machine.Restart | internal/systemd/source.go:429-505 | Every restart is of a unit that is held and has its reason in what the machine itself noted (a swap on record of a unit read up, idle for idleSamples passes and at a last look; a restart whose job ended, and a gate that said no; an invocation moved on from the recorded one; a unit read failed on a generation newer than the good one on disk), and, with the closure bound, has the right drop-in in force. |
| Machines.Machine.Prune | internal/systemd/fake_systemd_test.go:255-269 | Only generations beyond the newest keep + 1 go, and never the current one. |
| UnitSources.Source.Save | internal/systemd/source.go:902-913 | A dry run writes nothing; otherwise the disk has the memory, or the save is known to have been refused. |
| UnitSources.Source.SamplePass | internal/systemd/source.go:270-281 | The streak is the length of the run of idle pass samples, a unit on its way up or down not being idle. |
| UnitSources.Source.Activity | internal/systemd/source.go:130-150 | An activity tick moves no streak and changes nothing. |
| UnitSources.Source.UpdateStopped | internal/systemd/source.go:350-384 | A stopped unit's profile is moved with no restart, drop-in included, and never onto a pinned version. |
| UnitSources.Source.SwitchBack | internal/systemd/source.go:547-564 | The profile is on the generation asked for and the one it left is deleted, or its deletion was refused. |
| UnitSources.Source.Forward | internal/systemd/source.go:413-431 | How far the steps got is known exactly, each taken only once the one before it went through; a restart that is done runs the desired version. |
| UnitSources.Source.UndoSteps | internal/systemd/source.go:474-505 | Profile and closure go back to what they were; the unit is restarted again, cut short or not, only if the profile was moved and its invocation moved on. |
| UnitSources.Source.RollBack | internal/systemd/source.go:510-545 | Back on the generation left, its closure in force, restarted once for the cause given and gated once; otherwise a person is asked for. |
| UnitSources.Source.RecordSwap | internal/systemd/source.go:401-411 | Nothing is changed before the record is on disk; a refused record leaves the memory as it was. |
| UnitSources.Source.Swap | internal/systemd/source.go:386-468 | A swap ends deferred (nothing changed), undone or rolled back (profile as it was, but for a new generation whose deletion this swap was refused, counted or pinned out), or committed (on and running the desired version, gated, old generations pruned, all else forgotten); cut short or not, it restarts forward at most once and back at most once, for a rejection or an invocation moved on. |
| UnitSources.CommitKeepsTheGenerationLeft | internal/systemd/source.go:447-459 | A committed swap that was refused nothing keeps the generation it left exactly if fewer than keepGenerations were newer than that one before it. |
| UnitSources.LeftGenerationPruned | internal/systemd/source.go:447-459 | Moments of a run in which nothing is refused, each following from the one before as the passes' contracts say, by which the generation a swap left is pruned before the swap's end is saved. |
| UnitSources.NeverPutBack | internal/systemd/source.go:670-691 | Once that generation is gone, the record stays, with nothing restarted, through any number of passes, exactly until one of them first reads the unit restarted since the swap began and not stopped. |
| UnitSources.Source.ResumeSwap | internal/systemd/source.go:632-724 | An interrupted swap ends put back with no restart, committed on a healthy gate, or rolled back with one restart and pinned; never both ungated and unpinned if the unit restarted and was not stopped; unrefused and with From there, always finished and the disk saying so; never put back once From does not exist. |
| UnitSources.Source.FirstSight | internal/systemd/source.go:582-630 | Cut short or not, a first look makes no generation and restarts at most once; without a record, a unit that is up is adopted and touched no further, and one is rolled back and what it runs pinned out exactly when failed on a generation newer than the good one, a person being asked for if that is gone. |
| UnitSources.Source.Judge | internal/systemd/source.go:270-330 | Cut short or not, a unit is touched at all only if it is up, elsewhere than desired, not pinned out, and idle for idleSamples passes with this one; then, if still idle, it has its last look. |
| UnitSources.Source.Reconcile | internal/systemd/source.go:228-330 | The invariants hold at every crash; a dry run touches nothing; a pass, first ones included, makes no generation, records no swap and restarts nothing for a version pinned out, but for a failed unit's rollback; a pin on the desired version outlives the pass exactly unless it was a first look at a unit failed on another version in a generation newer than the good one; an interrupted swap is picked up first, and cleared if nothing is refused and From is there; all of this by the read the pass began with; at most one swap is tried, and where nothing is refused a past stays safe unless that has as many generations newer than the good one as every pruning keeps. |
| UnitSources.Source.Once | internal/systemd/source.go:109-128 | The same with the save that ends a pass: after an unrefused one the disk has the memory, and no record. |
| UnitSources.StartAgain | internal/systemd/source.go:632-724 | From every state any number of crashes can leave in which From exists, one uninterrupted, unrefused pass ends the interrupted swap committed, put back or rolled back, as ResumeSwap says, and clears the record; cut short again, it leaves such a state again. |
| UnitSources.Recover | internal/systemd/source.go:632-724 | So does one after any number of lives cut short in between, if fewer generations were newer than From when the swap was recorded than every pruning keeps: that From is still there follows. |
| UnitSources.SwapAndRecover | internal/systemd/source.go:389-724 | And so for the swap, from the profile's generation and target to the desired one, that any pass with no record on disk tries and that is cut short at any moment: fewer than keep generations newer than the current one before that pass is enough. Otherwise that pass comes to its end, or leaves no record. |
| UnitSources.GoodGenerationPruned | internal/systemd/source.go:590-630 | Moments of a run, nothing refused, after which the good generation is pruned, a failed unit has nothing to be rolled back to, and a person is asked for (FirstSight). |
| UnitSources.Lives | internal/systemd/source.go:389-724 | Over any number of lives and crashes, at every outside call: no ungated generation good on disk, none left without a record, From still there with its target until pruned, every restart with its reason in what was known, those of swaps after as many idle samples as one of the policies asks for. A person is asked for only because something was refused, for a profile Tidewaiter created, or with the unit read while there was nothing to go back to, and that only in a past that is not safe, which it stays where nothing is refused and no swap recorded. |
| UnitSources.PassesOnOneVersion | internal/systemd/source.go:566-580 | In a life of any passes on one desired version, first ones included, swaps that no gate ruled on are attempted at most MaxSwapFailures times, and it is pinned out by then; with nothing to recover at the first look the memory is exactly that of so many failures more, those remembered before counting. |
| UnitSources.PinnedLife | internal/systemd/source.go:247-357 | In a life of any passes on a version pinned out, first ones included and cut short or not, nothing new is tried, and it stays pinned out exactly unless the first read that finds the unit finds it failed, with the profile, as at the start, on another version in a generation newer than the good one. |
| UnitSources.PinnedLives | internal/systemd/source.go:247-357 | Over any number of lives and crashes: until the first look of one of them takes the pin, nothing new is tried, and the version stays pinned out on disk. |
| UnitSources.PinLost | internal/systemd/source.go:613-630 | A state such a look may find, and that the pinned version is swapped to again after it. |
| ImageMerge.WithoutImageDefaults | internal/docker/recreate.go:76-127 | The loops compute the settings less the image's, entry by entry, key by key and field by field. |
| ImageMerge.StripUndoesMerge | internal/docker/recreate.go:76-161 | Stripping an image from what Docker merged with it leaves the container's own settings less what coincided with it. |
| ImageMerge.RecreateIsFreshCreate | internal/docker/recreate.go:39-46 | A recreate on a new image equals a fresh create on it of those settings. |
| ImageMerge.RecreateLosesNothingExactlyWhen | internal/docker/recreate.go:53-75 | It equals a fresh create of all of the container's settings exactly when nothing it lost matters on the new image, for all fields. |
| ImageMerge.RecreateOnTheSameImageIsIdentity | internal/docker/recreate.go:53-57 | Recreating on the same image changes nothing. |
| ImageMerge.RecreatedIsFreshCreateOnTheLast | internal/docker/recreate.go:39-46 | Through any list of images, a container is a fresh create on the last. |
| ImageMerge.LessAllIsWhatCoincidedWithNone | internal/docker/recreate.go:39-75 | ... of the settings that coincided with none of the images it left, entry by entry, healthcheck field by field, entrypoint and cmd exactly when an image takes them away; nothing of those images but published ports leaks into it. |
| CreateBodies.OverrideConfig | internal/docker/recreate.go:258-276 | Each overridden setting goes out as the container's own or not at all; every other passes through. |
| CreateBodies.OverrideHost | internal/docker/recreate.go:278-285 | Only non-empty masked and readonly path lists are taken out of the host config. |
| CreateBodies.EndpointBody | internal/docker/recreate.go:329-348 | Endpoint configuration passes through and operational data does not; the MAC address and the short id alias by API version. |
| CreateBodies.WithoutIs | internal/docker/recreate.go:341-346 | The aliases less exactly the short id, each other one as often as it was. |
| CreateBodies.WithoutKeepsOrder | internal/docker/recreate.go:341-346 | And in the order they were in. |
| CreateBodies.CreateBody | internal/docker/recreate.go:187-214 | For any maps: every key of the config, the host config and the endpoint on no list goes out as inspect gave it, nothing is added, the aliases are those above, and the very MAC address that is the container's own goes back in exactly one place. |
| CreateBodies.HealthcheckSent | internal/docker/recreate.go:289-305 | The healthcheck sent reads back as the container's own, what it has of its image taken out, and passes every unknown field through; if nothing is its own, none is sent. |
| ContainerSwaps.FailuresAddUp | internal/docker/source.go:539-554 | A digest whose swap steps keep failing is pinned out exactly from the MaxSwapFailures-th time. |
| ContainerSwaps.Source.Run | internal/docker/source.go:579-598 | For any number of networks and any failing step, what is done so far determines the names exactly, and the original container is never lost at any step. |
| ContainerSwaps.Source.Undo | internal/docker/source.go:600-623 | A successful undo gives back the same containers under the same names, the original running; one that fails part-way still has the original under its own or its rollback name. |
| ContainerSwaps.Source.Update | internal/docker/source.go:482-577 | A swap is refused, undone and counted, rolled back and pinned, or committed on another container with the same networks, all other names untouched. |
| ContainerSwaps.Source.Reconcile | internal/docker/source.go:239-334 | Containers are touched only for an update: idle long enough, elsewhere than desired and not pinned out; the streak is the length of the run of idle samples; a tag that resolves to nothing leaves everything as it is; a swap no gate ruled on counts as a failure; one its gate ruled on leaves another container in its place, or the digest pinned out; unless committed, the container swapped out is never lost. |
| ContainerSwaps.PassesOnOneDigest | internal/docker/source.go:539-577 | In any passes over any containers that want one digest of one of them, its swap is started on at most MaxSwapFailures times if no gate rules on it, it is pinned out by then, and what is carried about it is exactly that of so many failures. |
| RestartWait.JobRemovedKeeps | internal/systemd/dbus.go:119-137 | The listener hands a job's end over without ever blocking, other jobs' included. |
| RestartWait.RunsAreValid | internal/systemd/dbus.go:119-232 | In every interleaving, an end heard early is kept for the caller whose reply is still to come, and ends are kept for nobody. |
| RestartWait.EveryCallerIsToldItsOwnJob | internal/systemd/dbus.go:184-232 | A restart neither refused nor cancelled returns exactly its own job's end if the listener heard it before the connection went, and that the bus was lost otherwise. |
| RestartWait.WaitingEndsOnceThereIsNews | internal/systemd/dbus.go:214-226 | A waiting restart can always go on once its job's end was heard or the connection went, and looks at its channel either way. |
| RestartWait.Connection.Removed | internal/systemd/dbus.go:121-137 | The listener's update of the maps is the protocol's step. |
| RestartWait.Connection.Replied | internal/systemd/dbus.go:205-212 | A reply finds its job's end if it was heard already. |
| RestartWait.Connection.Woken | internal/systemd/dbus.go:214-225 | Waking for a lost bus still returns an end that is on the channel. |
| RestartWait.Connection.Left | internal/systemd/dbus.go:192-199 | The ends are emptied when the last restart leaves. |
| Daemons.RecordedIs | internal/daemon/daemon.go:501-524 | A record lists exactly the workloads reported, once, settled as last reported; one not sampled keeps its busy verdict. |
| Daemons.ReadIs | internal/daemon/daemon.go:469-499 | A look keeps every settled flag and lists exactly the busy and settled workloads, once. |
| Daemons.Daemon.Record | internal/daemon/daemon.go:506-524 | The recording loop computes that record for its source and touches no other. |
| Daemons.Daemon.ReadActivity | internal/daemon/daemon.go:478-496 | So do the two loops of a look. |
| Daemons.RebootsOnlyWhenNobodyIsThere | internal/daemon/daemon.go:319-384 | In every interleaving of passes and ticks, a decision that leads to a Reboot call saw every source's last pass succeed with all settled, every source answer a look since with nothing busy, nothing held and the clock in the window; holds only during a pass; after one accepted reboot none is asked for. |
| Daemons.TicksNeverSettle | internal/daemon/daemon.go:223-238 | A tick moves no settled flag; a failing source's verdicts never change. |
| HealthGates.Combine | internal/health/health.go:139-160 | No exactly on a failure; yes exactly without one and with nothing inconclusive or the time out. |
| HealthGates.UptimeSecondsLeavesRoom | internal/health/gate.go:67-83 | The grace is between 2 and 30 and below the timeout exactly for timeouts of 3 or more. |
| HealthGates.Uptime.Evaluate | internal/health/checks.go:373-395 | The uptime check: down fails, inconclusive for the grace from when it was first seen up, then as its ports are. |
| HealthGates.Gate | internal/health/gate.go:34-65 | Whatever the evaluations meet: unhealthy exactly when some evaluation made had a failing check or erred before the deadline; it stops at the first that settles, after at most ceil(timeout/poll) others. |
| HealthGates.SettlesInTime | internal/health/gate.go:34-65 | With a positive poll the gate has settled by evaluation ceil(timeout/poll) + 1. |
| HealthGates.NeverServingIsNeverHealthy | internal/health/gate.go:67-83 | With the uptime check a workload that never serves is never committed, though a timeout commits, for every timeout of 3s or more and a first look in time. |
| Versions.CompareVersions | internal/docker/version.go:129-150 | The loop computes that order. |
| Versions.CompareIs | internal/docker/version.go:129-142 | The order says which of two versions is smaller at the first part they differ in, and 0 only of equal ones. |
| Versions.OrderIsTotal | internal/docker/version.go:129-142 | Of two versions exactly one comes first, or they are equal. |
| Versions.OrderIsTransitive | internal/docker/version.go:129-142 | The order is transitive. |
| Versions.TrailingZeroIsEqual | internal/docker/version.go:144-150 | A missing part counts as 0. |
| Versions.Choose | internal/docker/version.go:78-89 | Within any non-empty offered range, and beyond the newest this client asks for only when the oldest is. |
| Versions.Client.Do | internal/docker/client.go:377-398 | At most two attempts; from a daemon that says its range the answer is never a refusal of the version; an accepted kept version is asked for once and kept. |

## Left out

- Source.Reconcile: reads of the unit and the profile, the one that starts a gate included, are assumed to succeed.
- PassesOnOneVersion: one life at a time; a swap that is cut short is taken back without being counted, as in the code, so over several lives there is no bound.
- Machine.Gate: a verdict is taken to be about the generation the profile is on. A unit that systemd itself restarted between the record and the Set is taken for one the swap restarted, as in the code.
- Machine.Set: the generation of a profile the swap itself created (no From) is not tracked as ungated; the code has nothing to go back to there.
- UpdateStopped: the drop-in of a stopped unit whose Set fails stays bound to the desired path, as in the code, and is not promised to be put back.
- The other units in the state file: they are written back unchanged with every save; the model keeps one unit's entry.
- ImageMerge.Merge: the lists of exposed ports and volumes are compared as sets, so Docker's sorting of them is not modelled; labels are a map.
- ContainerSwaps.Docker.Do: a call that fails on the client but took effect is not modelled, nor Tidewaiter dying in a container swap, both documented as not recovered; the prefetch, image pruning and the adoption note change no container.
- CreateBodies: JSON itself; a value is text, a list of texts, a number, an object or anything else. ConnectBody is EndpointBody with create false.
- Versions.CompareVersions: splitting a version at its dots and reading its numbers; a version is its parts. Other callers renegotiating at the same time.
- Daemons.Run: the two loops are interleaved on values, one step under a lock at a time; only the steps with loops of their own (Record, ReadActivity) are also on the class.
- ContainerSwaps.Source.Reconcile: a registry or an image that cannot be read leaves the container alone just as a tag that resolves to nothing does.
- Daemons: the status file, systemd's notifications and log wording; what a pass or a tick reads, and whether the clock is in the reboot window, arrives with the event.
- HealthGates.Gate: cancellation, and the Docker source's race with health_status events; port-connect, port-bound and Docker's own check are among the other checks, with any results.
- Parsing of labels, units files, image refs and windows; the detectors; the registry client; HTTP, D-Bus encoding, netlink and subprocesses.
