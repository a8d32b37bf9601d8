# A model of zinit

zinit is a process supervisor that runs as process 1. This project models its concurrent core in Dafny
and proves what it keeps over every interleaving: how services are started and stopped in dependency
order, how one watcher supervises each service, how exit statuses find their way back to it under pid
reuse, how logs are kept and streamed, and why the locks cannot deadlock.

`dafny verify dfyconfig.toml` checks everything.

## How the model is laid out

| files | what they hold |
|---|---|
| `Basics`, `Ord`, `Paths` | the shutdown graph built by `service_dependency_order`, chains through `after` lists |
| `Shutdown`, `ShutdownOrder`, `ShutdownUndefined`, `ShutdownRoot`, `KillTree` | `kill_process_tree`: its step system, what all its runs guarantee, undefined names, the reserved root name, and the loop itself |
| `Service`, `Watch` | a service instance; the watcher protocol as a step system with `monitor`, `start`, `stop`, `forget` and the kill tasks beside it |
| `Supervision`, `Trace`, `WatchRuns`, `Pids`, `Wakeup`, `Kills`, `Departures`, `StateRelation`, `Ledger` | the invariants of that system and what its runs guarantee |
| `Progress`, `Releases`, `Calls` | what watchers, dependencies, kill tasks and calls get done by their own steps, with the whole state they end in |
| `Limits`, `Escapes` | exactly when a promise holds that does not always, and runs that break it |
| `PowerRuns` | the shutdown loop and the watcher protocol as one system |
| `Lifecycle` | `LifecycleManager` as an object: the locked sections in place, tied to the steps |
| `Reaper`, `ReaperRuns`, `ReaperRounds` | process table, reaper and kernel; the two loops of the reaper; a whole round |
| `Ring`, `LogStream` | the log ring and `push` against `stream` |
| `Locks` | every locked section of the program as a lock program, with fair locks |
| `Descendants` | `collect_descendants` |

A protocol is a state, a set of labelled steps (`Enabled`, `Apply`) and `Exec`, which replays a list of
labels from the start; "every run" means every list of labels `Exec` accepts. A lock-protected section is
one step. What happens is recorded in order in fields of the state (`received`, `killed`, `hist`,
`writes`, `fate`), so that a statement about a run is a statement about those records. Sleeps, timeouts,
signals and deaths may come at any moment. `tokio::sync::Notify` is a counter of `notify_waiters` calls
and a watcher's future the value of that counter when `notified()` was called. A kill task that outlives
its timeout is detached, not cancelled, and may post at any later time. A service instance has an
identity apart from its name, so a name can be forgotten and monitored again.

Loops that change variables in the original are methods with loops here (`Ord`, `KillTree`,
`ReaperRuns`, `Ring`, `Descendants`, `Lifecycle`), and objects with mutable fields are classes.

## Assumptions

- For everything the shutdown loop does: no service and no `after` entry is named `""`, the name kept for
  the dummy root (src/zinit/ord.rs:5). `ShutdownRoot` shows what goes wrong otherwise. The graph itself is
  specified for all tables.
- The log capacity is at least 1 and does not change.
- For `StateRelation`, and for `Limits.AcceptsIff` which rests on it: each write of Blocked, Running or
  TestFailure, which goes by name, finds the writer's own instance or none (`StepOk`), a test loop writes
  only while its process is on record, and it is gone by the next spawn. `Escapes.StaleBlocked` shows a
  run without the first. Everywhere else names may be reused at any time and test loops may outlive their
  abort.
- Dependency order over the whole run (`StartupFollowsChains`, `NeverSpawned`) is about one fixed `after`
  list for each name.

## Where the code and its promises part

- `docs/cmd.md` says shutdown stops all services. Services that are not active when `power` takes its
  snapshot get no kill task (`Escapes.SpawnedDuringShutdown`). Once the flag is set and no `start` is past
  its flag check, a service that is ready to be spawned still is if and only if its target is Up
  (`Limits.MaySpawnIff`): so the services that can return are those that were blocked, sleeping or not yet
  checked at the snapshot and that nobody has stopped since, and the next kind.
- A kill task may post a service whose target is Up (`Escapes.RaisedDuringShutdown`), exactly when, before
  its `stop`, a `start` of that name has passed the flag check and not written its target
  (`Limits.MayPostUpIff`). Otherwise the promise stands (`Kills.PostedMeansStopped`).
- A `start` is lost if and only if the service's watcher is on its way out: between the `break` and the
  section that clears `scheduled`, or a finished one-shot that has yet to notify (`Limits.StartTakesIff`,
  `Escapes.LostStart`).
- An `after` entry that names no service uses up one unit of the shutdown counter that
  src/zinit/ord.rs:35 does not provide, so the loop can exit with services left.
  `ShutdownUndefined.AlwaysCompleteIff` says exactly for which tables that cannot happen, and
  `ShutdownOrder.ExitsIffEnough` when the loop exits, for all tables.
- `docs/services.md` says dependencies must be running, or completed if they are one-shots. The code also
  accepts one that is not a one-shot and has just exited with status 0 (src/zinit/lifecycle.rs:726;
  `Limits.AcceptsIff`, `Escapes.SpawnedOnExited`), the one satisfying change that notifies nobody
  (`Wakeup.NoLostWakeup`, `Escapes.ParkedOnSuccess`). So the start order proved is that every dependency
  was spawned before, not that it is still running.

## Model

| member | source | states |
|---|---|---|
| `Ord.CollectEdges` | src/zinit/ord.rs:13-22 | the first pass keeps every `after` list as it is and counts each name as often as it is listed, repetitions included |
| `Ord.AddHeads` | src/zinit/ord.rs:23-30 | root edges go, once each, to exactly the services nobody lists, and are counted too |
| `Ord.ServiceDependencyOrder` | src/zinit/ord.rs:12-37 | for every table: the graph is the `after` lists plus a root in front of the unlisted services, in-degrees count list entries and root edges, and the count is the services and the root; unless a service has the root's name, each in-degree is the number of edges into the name |
| `Ord.PendingPositive` | src/zinit/ord.rs:16-31 | a name has an unconsumed incoming edge if and only if some remaining name lists it |
| `Shutdown.ReleasedAfterListers` | src/zinit/lifecycle.rs:594-608 | in-degree zero means that every name with an edge to it has come out of the death channel |
| `Shutdown.NoUnderflow` | src/zinit/lifecycle.rs:595-596 | the in-degree about to be decremented has an entry and is positive, so the u32 does not underflow and `or_default` adds nothing |
| `Shutdown.StepInv` | src/zinit/lifecycle.rs:588-638 | every step of the loop and every post of a kill task keeps conservation of edges, the one place of each released name, the counter's balance, the order and the kill bookkeeping |
| `Shutdown.RunInv` | src/zinit/lifecycle.rs:578-644 | the same for every run from the graph that was built |
| `ShutdownOrder.InDegreesConserved` | src/zinit/lifecycle.rs:594-635 | over every run each in-degree equals the number of edges into the name not consumed yet, neither decrement is ever of zero, and the map gains no entry |
| `ShutdownOrder.ShutdownOrderSafety` | src/zinit/lifecycle.rs:588-632 | in every interleaving names come out once and after all services that list them; a kill task is started at most once, only for a service active at the snapshot, and only when all its listers have come out; the same for a name passed through |
| `ShutdownOrder.ReceivedPath` | src/zinit/lifecycle.rs:588-608 | a chain of `after` entries into a received name repeats nothing and lies wholly before it |
| `ShutdownOrder.ReceivedIsFree` | src/zinit/lifecycle.rs:588-608 | no received name is on a dependency cycle or after one |
| `ShutdownOrder.StuckPath` | src/zinit/lifecycle.rs:588-608 | from a name the stuck loop has not received a chain of listers of any length goes back |
| `ShutdownOrder.ReleasedWhenQuiescent` | src/zinit/lifecycle.rs:584-638 | when the loop waits and nothing is queued or in flight, what it has received is the root and exactly the names that are not on or after a cycle |
| `ShutdownOrder.KilledAreReceived` | src/zinit/lifecycle.rs:603-615 | a name that came out had a kill task if and only if it was active at the snapshot; with nothing queued or in flight all killed names came out |
| `ShutdownOrder.CompleteIffNoUndefinedReceived` | src/zinit/lifecycle.rs:634-637 | a run that exited received every service if and only if it received no undefined name |
| `ShutdownOrder.ExitIsComplete` | src/zinit/lifecycle.rs:634-637 | with all names defined an exit has received each service and the root exactly once, with nothing queued and no kill task in flight |
| `ShutdownOrder.ExitsIffAcyclic` | src/zinit/lifecycle.rs:584-638 | with all names defined, under every schedule that has run its course, the counter reached 0 if and only if the dependencies are acyclic, and exactly the services not on or after a cycle came out |
| `ShutdownOrder.ExitsIffEnough` | src/zinit/lifecycle.rs:584-638 | for every table, undefined names included: the loop exits if and only if more names can be released than there are services, and is otherwise stuck with all of them received |
| `ShutdownOrder.AcyclicProgress` | src/zinit/lifecycle.rs:588-638 | without a cycle the loop is never stuck: until it exits something is queued, in flight or being processed |
| `ShutdownOrder.StepWork` | src/zinit/lifecycle.rs:588-638 | every step uses up some of a bounded amount of work |
| `ShutdownOrder.RunLength` | src/zinit/lifecycle.rs:588-638 | every run ends, after at most five steps an edge and two more |
| `ShutdownUndefined.IncompleteRun` | src/zinit/ord.rs:35 | without cycles, if some service does not lead to some undefined name, some schedule exits before it has received every service |
| `ShutdownUndefined.CompleteRun` | src/zinit/ord.rs:35 | if every service leads to every undefined name, every exit has received all services |
| `ShutdownUndefined.CycleHasService` | src/zinit/ord.rs:16-22 | a table with a cycle has a service on it or after it |
| `ShutdownUndefined.AlwaysCompleteIff` | src/zinit/lifecycle.rs:634-637 | for which tables an exit always means that every service came out: if and only if, without cycles, every service leads to every undefined name, and with a cycle the loop cannot exit at all |
| `ShutdownRoot.RootListed` | src/zinit/ord.rs:5 | an `after` entry with the root's name: the root comes out twice, a u32 wraps and an active service is left behind |
| `ShutdownRoot.RootIsService` | src/zinit/ord.rs:31 | a service with the root's name loses its list: the root comes out twice, a u32 wraps and the loop waits for ever |
| `KillTree.Await` | src/zinit/lifecycle.rs:588 | waiting on the channel is a run of posts by kill tasks, and ends with a name unless nothing is left |
| `KillTree.ReleaseChildren` | src/zinit/lifecycle.rs:594-632 | the inner loop is a run of edge steps, with posts between them |
| `KillTree.KillProcessTree` | src/zinit/lifecycle.rs:578-644 | the loop terminates or is stuck whatever the kill tasks do; order and single kill as above; it exits if and only if enough names can be released, which for defined names is acyclicity; active names that came out are exactly the killed ones |
| `Service.ZInitService.ForceSetState` | src/zinit/service.rs:78-80 | changes the state alone, and the watch channel with it |
| `Supervision.SupStep` | src/zinit/lifecycle.rs:812-958 | every step keeps: one watcher past the gate for each instance, `scheduled` if and only if there is one, pid and live process those of that watcher |
| `Supervision.FramedStep` | src/zinit/lifecycle.rs:812-958 | instances keep name and configuration, watchers their instance, and the table changes only by a new instance or a removal |
| `Trace.TargetStep` | src/zinit/lifecycle.rs:131-277 | every step keeps: the target is Down if and only if the last target write said so, and an instance out of the table is Down without a process |
| `Trace.StateStep` | src/zinit/lifecycle.rs:848-944 | every step keeps: Running or Success means its name was spawned, Success means this instance's process was delivered exit code 0, and what a check has seen so far answers for its dependencies |
| `Trace.SpawnIsLegal` | src/zinit/lifecycle.rs:871-894 | whenever the spawn section spawns, the instance is not stopped, not forgotten, has no live process, and all its dependencies are answered for |
| `Trace.LegalStep` | src/zinit/lifecycle.rs:871-894 | so every step keeps the history one in which every spawn was legal |
| `WatchRuns.RunInv` | src/zinit/lifecycle.rs:812-958 | all of these hold in every run |
| `WatchRuns.SingleSupervisor` | src/zinit/lifecycle.rs:815-827 | with any number of `monitor` and `start` calls an instance has at most one watcher past the gate, `scheduled` is true if and only if one exists, and pid is nonzero if and only if that watcher is between its spawn and its exit section, for exactly that pid |
| `WatchRuns.PidShowsProcess` | src/zinit/lifecycle.rs:890-895 | an instance has a live process if and only if the pid on record is that of a waiting watcher's child, and none when it is 0 |
| `Pids.StopReadsLivePid` | src/zinit/lifecycle.rs:158-166 | every `stop` in every history read 0 or the pid of the instance's last spawn, and not 0 if that process had not been reaped; every SIGKILL of a kill task went to the last spawn's pid |
| `Pids.PidsStep` | src/zinit/lifecycle.rs:871-929 | every step keeps the pid on record that of the last spawn, or 0 once its process is gone |
| `WatchRuns.StopHoldsUntilStart` | src/zinit/lifecycle.rs:158-159 | between a `stop` and a later spawn of the instance there is a `start` that set its target Up |
| `WatchRuns.OneProcessAtATime` | src/zinit/lifecycle.rs:882-929 | between two spawns of an instance its first process was reaped |
| `WatchRuns.ForgetIsFinal` | src/zinit/lifecycle.rs:262-277 | a forgotten instance has no process, stays Down for good and is never spawned again |
| `WatchRuns.DependenciesSpawnedFirst` | src/zinit/lifecycle.rs:709-742 | when an instance is spawned every name in its `after` list has been spawned before |
| `WatchRuns.OneShotGating` | src/zinit/lifecycle.rs:724-728 | each dependency the last check saw as a one-shot instance was delivered exit code 0 before the spawn |
| `WatchRuns.StartupFollowsChains` | src/zinit/lifecycle.rs:848-894 | with fixed configurations first spawns run strictly against any chain of `after` entries |
| `WatchRuns.NeverSpawned` | src/zinit/lifecycle.rs:709-742 | a service on or behind a cycle, one that lists itself, and one that depends on a name never monitored, is never spawned |
| `Wakeup.ExcusedStep` | src/zinit/lifecycle.rs:793-798 | a step that notifies nobody cannot make an unsatisfied dependency satisfied without leaving a notification owed, unless it is a silent success |
| `Wakeup.WatcherStep` | src/zinit/lifecycle.rs:848-863 | every step keeps, for each watcher that waits on the current epoch, the dependency it found unsatisfied excused |
| `Wakeup.NoLostWakeup` | src/zinit/lifecycle.rs:848-863 | a watcher parked on an unfired future with all dependencies satisfied has a notification coming, owed by a test loop or a one-shot it depends on, or depends on a non-one-shot that exited into Success |
| `Kills.KillStep` | src/zinit/lifecycle.rs:648-694 | every step, of the kill task or of anyone else, keeps what is promised of the instance the task stopped, as long as no `start` has raised it since that `stop` |
| `Kills.PostedMeansStopped` | src/zinit/lifecycle.rs:648-694 | once a kill task has posted, and no `start` raised the instance after the task's own `stop`, it is Down and, unless forgotten, has no pid or was sent SIGKILL |
| `Kills.SealedRun` | src/zinit/lifecycle.rs:131-137 | with the flag set and no `start` past its flag check, no target is raised any more |
| `Kills.DownForGood` | src/zinit/lifecycle.rs:131-137 | from then on an instance that is Down is never spawned, whatever follows |
| `Kills.ShutdownIsFinal` | src/zinit/lifecycle.rs:544-563 | so a service whose kill task posted, and that was not raised after its `stop`, is never spawned again |
| `Departures.ListedOrForgotten` | src/zinit/lifecycle.rs:262-277 | an instance is in the table under its name, or a `forget` took it out |
| `PowerRuns.Project` | src/zinit/lifecycle.rs:544-694 | every run of loop and services together is a run of the loop and a run of the services |
| `PowerRuns.RunLinked` | src/zinit/lifecycle.rs:614-630 | each name the loop released has one kill task of its own, which is in flight for the loop exactly until it has posted |
| `PowerRuns.DependantsStopFirst` | src/zinit/lifecycle.rs:594-632 | end to end, beside any API calls and watchers: once the kill task of a service has started, every service that lists it and was active at the snapshot is Down with its process gone or sent SIGKILL, unless a `start` raised it after its stop |
| `PowerRuns.ShutdownSettlesAll` | src/zinit/lifecycle.rs:578-638 | and once the loop has got through, with all names defined, so is every service active at the snapshot |
| `PowerRuns.SnapshotIff` | src/zinit/lifecycle.rs:550-558 | the snapshot is exactly the services in the table with a process on record, apart from those in TestFailure |
| `PowerRuns.ShutdownCanMove` | src/zinit/lifecycle.rs:588-638 | without a cycle, until the loop exits, the loop or one of its kill tasks can take a step, whatever the services do |
| `StateRelation.CoupledStep` | src/zinit/lifecycle.rs:786-943 | every step whose write by name hits its own instance keeps state and program counter coupled, and makes only allowed or exempt writes |
| `StateRelation.LifecycleRelation` | src/zinit/state.rs:47-73 | in a run whose writes by name each hit the instance they are meant for, pid is nonzero if and only if the state is Spawned, Running or TestFailure, and every forced write is one `can_transition_to` allows, a respawn, or a way out of TestFailure |
| `StateRelation.RefusedIffExempt` | src/zinit/state.rs:47-73 | of the edges a service goes along, `can_transition_to` refuses exactly the respawns and the ways out of TestFailure |
| `Ledger.KeptSection` | src/zinit/lifecycle.rs:871-957 | every locked section of a watcher forces what its cause says, in turn: no spawn or failed spawn while a process is on record, no end without one, and the status recorded is that of the last exit |
| `Ledger.StateIsLastForced` | src/zinit/lifecycle.rs:856-943 | in every run an instance shows what was last forced on it: Spawned by a spawn, Running by a one-shot's spawn or a passed test, Failure by a failed spawn, Success by exit code 0, Error with its status by any other end, Blocked and TestFailure by name; no one-shot is ever seen in Spawned |
| `Ledger.ShowsLastExit` | src/zinit/lifecycle.rs:936-942 | an instance whose last write is the end of a process shows the status of its last delivered exit |
| `Ledger.FailureShows` | src/zinit/lifecycle.rs:896-902 | after a failed spawn an instance shows Failure until it is spawned again or written by name |
| `Progress.SpawnsAlone` | src/zinit/lifecycle.rs:829-894 | from any reachable state and any place where nothing is in its way (an open gate, the way round the loop, asleep, or parked on a future that has fired), the watcher of an Up instance with its dependencies met spawns it by its own steps, in an exact number, and changes nothing else |
| `Progress.EndsAlone` | src/zinit/lifecycle.rs:923-953 | a process ends with any status: in three steps pid and status are recorded, and the watcher sleeps or, for a one-shot, owes the notification |
| `Progress.OneShotEnds` | src/zinit/lifecycle.rs:923-957 | a one-shot's end: five steps to the status recorded, one notification, `scheduled` cleared and the watcher gone |
| `Progress.FailsAlone` | src/zinit/lifecycle.rs:896-902 | a failed spawn leaves the instance in Failure and unscheduled, without a retry, and nothing else changed |
| `Progress.StopsAlone` | src/zinit/lifecycle.rs:834-880 | a watcher that finds its instance Down, at the top of the loop or about to spawn, spawns nothing and clears `scheduled` |
| `Progress.Restarts` | src/zinit/lifecycle.rs:923-953 | an ordinary Up service with its dependencies met comes back after any exit, by its watcher's own steps |
| `Releases.NamedEffect` | src/zinit/lifecycle.rs:745-760 | a write by name forces Blocked, Running or TestFailure on the instance the name has and on no other; a passed test makes it a met dependency exactly if it is no one-shot |
| `Releases.TestLoop` | src/zinit/lifecycle.rs:787-809 | a live test loop can pass at any time, can end, and can find that its test cannot be run exactly if the service has one |
| `Releases.TestReleases` | src/zinit/lifecycle.rs:793-798 | from any reachable state, when an ordinary service's test passes, a watcher parked for it alone can spawn its service, with the dependency Running and its pid as it was |
| `Releases.OneShotReleases` | src/zinit/lifecycle.rs:936-949 | when a one-shot exits with 0, a watcher parked for it alone can spawn its service, with the one-shot in Success and without a process |
| `Releases.SpawnedOnRunning` | src/zinit/lifecycle.rs:724-726 | a run that spawns a service while its dependency has a process |
| `Releases.SpawnedAfterOneShot` | src/zinit/lifecycle.rs:724-726 | a run that spawns a service after its one-shot dependency exited with 0 |
| `Calls.KillAlone` | src/zinit/lifecycle.rs:648-694 | a kill task for a service in the table: its target ends Down, SIGKILL is sent exactly if there is a pid, then the post, and nothing else of the services changes |
| `Calls.KillNobody` | src/zinit/lifecycle.rs:660-693 | a kill task that finds no service does not wait, signals nobody and posts |
| `Calls.MonitorCall` | src/zinit/lifecycle.rs:94-114 | the call's two steps: one new instance with the given configuration, Up, unscheduled, Unknown, and one watcher; a known name changes nothing |
| `Calls.StartCall` | src/zinit/lifecycle.rs:131-148 | the call's three steps: the target is Up and one more watcher stands before the gate; an unknown name changes nothing |
| `Calls.StopThenForget` | src/zinit/lifecycle.rs:151-277 | after `stop` an instance is taken out of the table exactly if it has no pid |
| `Limits.MayPostUpIff` | src/zinit/lifecycle.rs:131-137 | a kill task that has yet to stop its service may post it Up if and only if a `start` of the name is between its flag check and its target write, and the name is in the table or about to be |
| `Limits.StartTakesIff` | src/zinit/lifecycle.rs:815-827 | once the watcher of a `start` has passed the gate of an Up instance, some watcher of it is in the loop if and only if none was leaving: owing a one-shot's notification or about to clear `scheduled` |
| `Limits.LeavesLoopIff` | src/zinit/lifecycle.rs:829-957 | a watcher of an Up instance leaves the loop by a failed spawn or a one-shot's exit, and by nothing else |
| `Limits.MaySpawnIff` | src/zinit/lifecycle.rs:871-894 | with the flag set and no `start` past its check, a service ready to be spawned may be if and only if its target is Up |
| `Limits.AcceptsIff` | src/zinit/lifecycle.rs:714-742 | a check accepts exactly a dependency in the table that is Running with a process and no one-shot, or in Success without one, one-shot or not; anything else stops it there |
| `Limits.PassesGateIff` | src/zinit/lifecycle.rs:815-827 | a watcher passes the gate, and then supervises, exactly if its instance is Up and has no supervisor; otherwise it goes without a trace |
| `Escapes.LostStart` | src/zinit/lifecycle.rs:954-957 | a run after which a service is Up with no watcher left, because its `start` fell between `break` and line 957 |
| `Escapes.SpawnedDuringShutdown` | src/zinit/lifecycle.rs:550-558 | a run in which a service inactive at the snapshot is spawned after the flag was set |
| `Escapes.RaisedDuringShutdown` | src/zinit/lifecycle.rs:131-137 | a run in which an active service is posted to the death channel with its target Up |
| `Escapes.SpawnedOnExited` | src/zinit/lifecycle.rs:724-728 | a run that spawns a service right after its ordinary dependency exited with status 0 |
| `Escapes.ParkedOnSuccess` | src/zinit/lifecycle.rs:936-953 | a run that leaves a watcher parked with all its dependencies satisfied and no notification owed |
| `Escapes.StaleBlocked` | src/zinit/lifecycle.rs:856-857 | a run in which the watcher of a forgotten instance writes Blocked over the running instance that took its name |
| `Lifecycle.LifecycleManager.Monitor` | src/zinit/lifecycle.rs:94-114 | refuses during shutdown and for a known name, else adds a new instance; the table goes as the step says |
| `Lifecycle.LifecycleManager.SetServiceState` | src/zinit/lifecycle.rs:745-760 | writes state and target of the named instance and of no other, and nothing if there is none |
| `Lifecycle.LifecycleManager.Stop` | src/zinit/lifecycle.rs:151-166 | sets the target Down under the lock and returns the pid read there; the step of the protocol |
| `Lifecycle.LifecycleManager.Start` | src/zinit/lifecycle.rs:131-148 | refuses during shutdown; else sets the target Up, and fails afterwards if there is no such service |
| `Lifecycle.LifecycleManager.Forget` | src/zinit/lifecycle.rs:262-277 | removes exactly a known service that is Down and has no pid; the step of the protocol |
| `Lifecycle.LifecycleManager.Kill` | src/zinit/lifecycle.rs:280-292 | signals the recorded pid, and fails for an unknown service or one without a pid |
| `Lifecycle.LifecycleManager.CanSchedule` | src/zinit/lifecycle.rs:709-742 | true if and only if every dependency is in the table, and Success, or Running and not a one-shot |
| `Lifecycle.LifecycleManager.ActiveServices` | src/zinit/lifecycle.rs:547-558 | the snapshot is exactly the services in Running or Spawned |
| `Lifecycle.LifecycleManager.Power` | src/zinit/lifecycle.rs:544-574 | end to end: of the names that came out exactly the Running and Spawned services were killed, in order; with defined names the services killed are exactly those not on or after a cycle, and the loop gets through if and only if the `after` lists are acyclic |
| `Lifecycle.EntryGate` | src/zinit/lifecycle.rs:815-827 | opens for an instance that is Up and unscheduled, which it then marks |
| `Lifecycle.SpawnSection` | src/zinit/lifecycle.rs:871-908 | a Down instance is left alone, a failed spawn leaves Failure and nothing else changed, a successful one the pid and Spawned, or Running for a one-shot; and that is the step of the protocol |
| `Lifecycle.ExitSection` | src/zinit/lifecycle.rs:928-953 | clears the pid and records Success for exit code 0 and the error otherwise, and nothing else; a one-shot goes on to notify, another to sleep |
| `Reaper.ReapStep` | src/manager/mod.rs:86-95 | taking a zombie from the kernel, after which its pid may be reused, keeps the invariant of table, channels, kernel and reaper |
| `Reaper.DispatchHit` | src/manager/mod.rs:113-116 | so does sending a status: the table entry for the pid is the child that died with it |
| `Reaper.RunInv` | src/manager/mod.rs:83-123 | the invariant holds in every run, pid reuse included |
| `ReaperRuns.WaitNeverFails` | src/manager/mod.rs:41-43 | no child's sender is ever dropped unused, and what a child receives is the status its own process died with; so `wait` cannot fail |
| `ReaperRuns.SentOnce` | src/manager/mod.rs:113-116 | a status once sent is never replaced |
| `ReaperRuns.TableKeysAreUnreaped` | src/manager/mod.rs:171-199 | table keys are unreaped children, but for those whose status the reaper holds under the lock; an insert never overwrites a handler |
| `ReaperRuns.DeathsAreDelivered` | src/manager/mod.rs:110-112 | an unreaped dead child means SIGCHLD is pending or the reaper on its way, though signals coalesce; when it is idle with none pending every child that died was sent its own status |
| `ReaperRuns.DeliveryIsPossible` | src/manager/mod.rs:109-120 | while a status is undelivered, the reaper or the `run` that holds the lock can move |
| `ReaperRounds.RoundCompletes` | src/manager/mod.rs:109-120 | with SIGCHLD pending and the lock free the reaper gets back to rest by its own steps: every zombie reaped, no living process touched, every dead child sent its own status |
| `ReaperRounds.RunCompletes` | src/manager/mod.rs:171-199 | `run` leaves the child alive, registered under its pid and waiting for its status, and the lock free |
| `ReaperRounds.RestsUntilDeath` | src/manager/mod.rs:109-111 | at rest the reaper starts exactly when a SIGCHLD is pending |
| `ReaperRounds.ChildIsDelivered` | src/manager/mod.rs:171-199 | from spawn to status: a child that dies with any status is sent that status after one round, and its pid is free again |
| `ReaperRuns.WaitProcess` | src/manager/mod.rs:83-98 | with processes dying all the while, the loop leaves no zombie, reaps each process at most once, with its own status if it was dead before, and takes no live one |
| `ReaperRuns.ProcessManager.Drain` | src/manager/mod.rs:113-119 | the dispatch loop looks up and sends all statuses in order |
| `ReaperRuns.DrainIsDispatch` | src/manager/mod.rs:113-119 | the loop has the effect of the protocol's dispatch steps taken one by one |
| `ReaperRuns.DrainSendsOwnStatus` | src/manager/mod.rs:113-119 | in a reachable round it sends each child its own status |
| `Ring.Buffer.Push` | src/manager/buffer.rs:28-36 | whatever was pushed before, filling or wrapping: the buffer shows the last `cap` of everything pushed |
| `Ring.Buffer.Iterate` | src/manager/buffer.rs:43-51 | the iterator's two slices in order are those last items |
| `Ring.Buffer.Collect` | src/manager/buffer.rs:111-117 | iterating to the end gives exactly the last min(n, cap) items in push order |
| `Ring.BufferIter.Next` | src/manager/buffer.rs:63-73 | the next item across the two slices, or none past the end |
| `LogStream.RunInv` | src/manager/buffer.rs:93-147 | stored, pending, sent, snapshot and followed lines stay in step in every run |
| `LogStream.PushCompletes` | src/manager/buffer.rs:93-98 | a push stores the line as the newest one and broadcasts it after all earlier broadcasts |
| `LogStream.StreamStarts` | src/manager/buffer.rs:105-124 | a reader gets the last `cap` stored lines if it asked for them, and follows from its subscription on |
| `LogStream.StreamAccounts` | src/manager/buffer.rs:105-147 | for any flags and any lag: the snapshot is exactly the retained lines if asked for, what follows accounts for the broadcast from the subscription on in order and once each, and no line is missing if and only if the reader was told of none |
| `LogStream.StreamHasNoGap` | src/manager/buffer.rs:105-147 | with both flags and no lag no line from the oldest retained one on is missing between snapshot and followed part; a line comes twice exactly when it was stored before the snapshot and broadcast after the subscription |
| `LogStream.CanRead` | src/manager/buffer.rs:130-145 | a following reader with something unread can go on: to the next line exactly if it has not fallen behind |
| `LogStream.CatchesUp` | src/manager/buffer.rs:130-145 | and reads up to the last broadcast by its own steps, each line once and in order, with nothing lost |
| `LogStream.OnePusherIsContiguous` | src/manager/buffer.rs:93-98 | with one pusher and no lag both parts are ranges of the push order and the second starts no later than the first ends |
| `Locks.SectionRanked` | src/manager/mod.rs:171-200 | every locked section takes locks in increasing rank (flag, table, one service, process table, log) and parks with none held |
| `Locks.SectionTakes` | src/zinit/lifecycle.rs:709-760 | which locks each section takes, in which mode and order |
| `Locks.ProgramRanked` | src/zinit/lifecycle.rs:812-958 | so does every sequence of sections |
| `Locks.NoWaitCycle` | src/zinit/lifecycle.rs:709-760 | no reachable state of fair locks, with any number of tasks, has a cycle of tasks each waiting for the next |
| `Locks.SomeoneMoves` | src/zinit/lifecycle.rs:709-760 | while a task waits for a lock, some task that is neither new nor parked can move |
| `Locks.MutualExclusion` | src/zinit/lifecycle.rs:871-894 | in every reachable state two tasks hold a lock at once only if both read |
| `Locks.GrantedIff` | src/zinit/lifecycle.rs:709-760 | a queued task gets its lock exactly when it is first and it and all holders only read, or there are none |
| `Locks.RunsAlone` | src/zinit/lifecycle.rs:871-894 | from a state in which no lock is held or waited for, a task gets through any sequence of sections and leaves none held |
| `Descendants.BranchesDisjoint` | src/zinit/lifecycle.rs:413-417 | in an acyclic parent map a process hangs under one child only |
| `Descendants.CollectDescendants` | src/zinit/lifecycle.rs:407-419 | the recursion ends and appends each proper descendant exactly once, nothing else, parents before children |

## Left out

- The JSON-RPC server and client, the HTTP proxy, the command line, YAML loading and error codes: plumbing over libraries.
- `get_process_stats`, `get_child_process_stats` and `stats`, apart from their locks and `collect_descendants`: readings from sysinfo.
- `ensure_processes_terminated` and `verify_all_processes_terminated` as guarantees that processes die: both are best effort over stale pids.
- The watcher's branch for a failed `wait` (src/zinit/lifecycle.rs:932-935): `ReaperRuns.WaitNeverFails` says it is not reached, and `Watch` does not have it.
- Signals, spawning and `reboot`: a spawn gives any pid not in use, a process may die at any moment with any status.
- Real time: sleeps and timeouts may end at any moment; nothing is said about how long anything takes.
- The shutdown branches for other systems than Linux.
- `set_state` and `transition_to`: nothing calls them; `can_transition_to` is compared with the writes that happen.
- Liveness under fairness: what is proved is that a step is possible, what a watcher, task, call or reaper gets done by its own steps, or that a notification is owed, not that the steps are taken.
- The loop of `watch_service` as one method: its locked sections are methods (`Lifecycle`), the control between them is the program counter of `Watch`.
- In `Watch`, a dependency check reads one dependency at a time without the table's read lock, so it allows more interleavings than the code; the locks are in `Locks`.
- In `Watch`, a failed test attempt is no step, as it changes nothing, a test loop may end at any time, aborted or not, and the processes of test commands are children of `Reaper` only.
- `PowerRuns` has one `power` at a time; further kill tasks, as a second one would start them, may run beside it in `Watch`.
- `u32` and `usize` are unbounded but for the two decrements, which wrap; tables of 2^32 services are not considered.
- `KillTree.KillProcessTree`: returns `exited == false` where the original would wait for ever on the death channel.
- `Lifecycle.LifecycleManager.Power`: snapshot and graph are taken at one moment; the shutdown theorems take them as unrelated inputs, as the original reads the table twice.
- `Lifecycle.LifecycleManager.Start`: runs its three locked parts without a break; in `Watch` they are three steps with anything between them.
- `Lifecycle.LifecycleManager.Stop`: ends where the lock is dropped; an unknown stop signal, which makes the original fail after it has lowered the target, and the signals sent afterwards are not modelled.
- `Lifecycle.LifecycleManager.Kill`: returns the pid to signal; a failing `killpg` is not modelled.
- `LogStream.StreamAccounts`: the bounded channel from `stream` to its client, whose back pressure only delays the reader, is not modelled.
- `StateRelation.LifecycleRelation`: says nothing of runs in which a write by name hits an instance it is not meant for, or a test loop outlives its process's exit section and then writes; `Escapes.StaleBlocked` is such a run.
- `StateRelation.CoupledStep`: the same, for one step.
- `ReaperRuns.WaitProcess`: processes born during the loop are in `Reaper`, whose reaping steps allow them, but not in the method.
- `Ring.Buffer.Push`: a capacity of 0, which makes the original divide by zero, is excluded.
- `Descendants.CollectDescendants`: cyclic parent maps are excluded, since the original would not return.
