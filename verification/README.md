# Verified model of ashore

ashore is a small platform daemon: `git push` builds a release, starts an instance of it,
checks its health, points the router at it and retires the one before it. This project
models the parts of the daemon whose correctness is not visible from any one function, and
proves what they promise.

* **The release lifecycle of one app** (`Lifecycle*.dfy`, `Releases.dfy`, `Backoff.dfy`). The
  release rows, the route, the app's actor, the runtime's containers and the detached
  drains form one step system. A step is one effect; between any two steps time passes,
  an instance exits, a drain ends, config changes, other apps write, a destroy that has
  found no actor removes the route, or the daemon crashes. One invariant ties rows, actor,
  runtime and route together over every interleaving and every crash, with one exception:
  such a late removal of the route, whose effect is characterised exactly
  (`LifecycleRoutes.dfy`). The promises (deploys are all or nothing, every container has
  exactly one owner, the route only moves to instances that passed their check, crash
  loops end, recovery leaves nothing half done) are theorems over whole runs, in terms of the
  fields of the rows, the containers and the route and of plain numbers.
* **The same things as programs** (`Store.dfy`, `Actor.dfy`, `Reconcile.dfy`, `Registry.dfy`).
  Classes whose methods follow the source statement by statement. The store's methods are
  proved equal to the statement functions, the actor's executions to be runs of the step
  system whatever the rest of the daemon does between two statements, and reconcile's
  loops to leave, for every app, what the step system's recovery of that app leaves.
* **The rate limiter** (`RateLimit.dfy`): an exact characterisation of the token bucket and
  the proof that evicting idle buckets cannot be observed.
* **The log pipeline** (`Lines.dfy`, `Logs.dfy`, `RotatingFile.dfy`): the line splitter, the
  ring, the lossy live readers and the rotating files, each against a plain sequence.
* **Two framings and a number format** (`Sse.dfy`, `Hook.dfy`, `Sizes.dfy` with
  `Decimal.dfy`): printers and parsers, round trips, and what a cut-off stream can do.

`dafny verify dfyconfig.toml` checks the whole project.

## Reading the lifecycle model

* A state is for one app. Other apps appear as arbitrary writes to rows that are not this
  app's (`OtherApps`), and `Store.ForeignLeavesRows` shows that every statement of the store
  on another app is one; `Reconcile.dfy` treats all apps at once.
* An instance's runtime id also stands for the address the router dials. A release is
  known by its row id; a container's label is the release's version.
* Build, start, health check and the pusher's hang-up have nondeterministic outcomes; so
  has every read that can be refused, and the insert of a new row.
* The fields of the actor that change together and that nothing else can read in between
  change in one step: the swap of `current` with the hand-over to the drain goroutine.
  The route's move, the row's move to live, an exit report, the removal of the dead
  container and the two halves of a destroy are steps of their own.
* A `Wait` error counts as an exit, so an exit report may come for any id at any time,
  any number of times.
* A recovery may be cut off anywhere (`RecoveryCutOff`) and be started again; its listing
  may be stale about instances that have exited since.
* A destroy that looks for the app's actor in its own goroutine and finds none, or one that
  has retired, is two steps: the lookup, which counts in `strays`, and the removal of the
  route at any later time.
* `approved`, `history`, `intact`, `since` and `dropped` are history variables: instances
  that passed a check or were adopted, failures since the last reset, whether no restart
  sent by reconcile has gone live after any of them, when the current instance took over,
  and whether a late removal has hit the route of a served app.

Assumptions: `runtime.Stop` and store writes of a deploy that has its row succeed, so do
the reads of a reconcile (the source goes on to serve after one that returned an error,
internal/daemon/daemon.go:99-101; the model's daemon is up only after a complete one),
config and manifest snapshots decode, no step panics, the clock does not go back, and an
app is not destroyed and created again under its name while an old instance drains.

## Findings

Where the code does not meet a promise on all inputs, the exact condition is proved.

* An error text with a newline can make the push hook accept a failed deploy. On a
  connection that holds it does if and only if a later line of the text is a status of
  zero and those between pass as output (`Hook.FailedDeployExitsZeroIff`;
  `Hook.ErrorTextCanPass` shows one). On a connection that may break it can for more texts:
  if and only if such a line only begins like one (`Hook.CutFailurePassesIff`;
  `Hook.CutErrorTextCanPass` shows a text that is rejected in full and can pass when cut),
  which is to say with 20, 2+0 or 2-0 (`Hook.ZeroPrefixIff`). Reasons of a refusal are alike
  (`Hook.RefusalExitsZeroIff`, `Hook.CutRefusalPassesIff`). For any text of one line the
  verdict is faithful, wherever the connection breaks.
* The hook reads at most 1 MiB a line, and the daemon cuts output only where no newline is
  in sight, so the promise that the hook's scanner is never overrun (internal/hook/server.go:42-44)
  does not hold for a single write of a longer line: the deploy succeeds and the push is
  rejected. Writes of at most 983040 bytes are safe (`Hook.SuccessIsHeardIff`,
  `Hook.SmallWritesAreHeard`, `Hook.LongLineIsNotHeard`).
* An event whose *name* ends in a carriage return does not survive the event stream,
  besides names with a newline, the two verdict names, and data lines that end in one:
  `Sse.EventRoundTripsIff`. Of an error verdict the text arrives as sent if and only if no
  line of it ends in a carriage return; the events, and that it is an error, arrive in any
  case (`Sse.StreamsRoundTrip`).
* The limiter's sweep is exact only if the rate divides the burst in nanoseconds
  (`RateLimit.SweepIsExactIff`); with the burst of twice the rate that the router uses it
  always does.
* A `Destroy` that finds no actor, or a retired one, removes the route from its own
  goroutine, outside the actor (internal/supervisor/supervisor.go:206-228). If a push has
  gone live between the lookup and the removal, the app runs and is not routed: after such
  a removal the route agrees with what is served if and only if no deploy has swapped since
  the lookup, or a destroy has come after the last that did
  (`LifecycleRoutes.LateRemovalIsHarmlessIff`; `AServedAppCanLoseItsRoute` builds a run in
  which it does not). A retired actor is also found once the
  daemon is shutting down, with its instance still up. `LifecycleRoutes.RouteAgreesIff` says
  for every moment of every run whether the route is right; the other three stores agree
  always.
* A daemon killed between two renames of a rotation leaves a gap in the numbered files if
  and only if some rename has been done, some is still to do, and there was a file with the
  number that the last one moved (`RotatingFile.KilledRotationLeavesAGapIff`); order and
  suffix hold all the same.

## Model

| member | source | states |
|---|---|---|
| `Store.Store.CreateApp` | internal/store/apps.go:43-63 | refused if and only if the name is not 1 to 32 small letters, digits and hyphens, or the name or the host is taken; otherwise the one new row has that name and host and no live release; nothing else changes |
| `Store.EveryNameIsValid` | internal/store/store.go:27-30 | after any sequence of operations every app has a name of 1 to 32 small letters, digits and hyphens |
| `Store.Store.DeleteApp` | internal/store/apps.go:84-97 | refused if and only if the app is not there; otherwise exactly its row and its releases go, and all others stay as they are |
| `Store.FreedByDelete` | internal/store/apps.go:84-97 | in every sequence of operations the name and the host of a deleted app can be given to a new one, which begins without a release |
| `Store.Store.CreateRelease` | internal/store/releases.go:93-128 | refused if and only if there is no such app; the new row has one more than the highest version of its app, an empty snapshot as {}, the rest as asked, and is building without an image and starting with one |
| `Store.Store.MaxVersion` | internal/store/releases.go:115-118 | the highest version of the app, 0 if it has none |
| `Store.Store.MarkBuilt` | internal/store/releases.go:202-215 | a building row gets its image and is starting; refused for no image, for no such row, and with its status for any other; nothing else changes |
| `Store.Store.MarkFailed` | internal/store/releases.go:219-229 | a building or starting row is failed; refused for no such row and with its status for any other; nothing else changes |
| `Store.Store.SetLive` | internal/store/releases.go:234-260 | the row is live, the one the app named is superseded and the app names the new one; refused for a row that is not there or not the app's, and with its status for one that is not starting; nothing else changes |
| `Store.TwoUpdates` | internal/store/releases.go:241-253 | the two updates of the transaction, one after the other, leave what the specification says |
| `Releases.CreateReleaseSound` | internal/store/releases.go:93-128 | an insert keeps the table invariant and its version is above every other of the app |
| `Releases.SetLiveSound` | internal/store/releases.go:234-260 | going live keeps the table invariant: one live row per app, named by the app |
| `Store.EveryOperationSequenceIsSound` | internal/store/releases.go:14-33 | after any sequence of operations from empty tables: one live row per app and named by it, versions 1..k without holes or repeats, images exactly where they have been built |
| `Store.AtMostOneLiveRow` | internal/store/releases.go:231-234 | a row is live if and only if its app names it; two live rows of an app are one |
| `Store.OperationKeepsReleases` | internal/store/releases.go:36-39 | a release that survives an operation is the same release; its image, commit, config, manifest and note are frozen once it leaves building |
| `Store.OperationMovesAlongOneArrow` | internal/store/releases.go:14-26 | a status changes only along one arrow of the diagram and only by the operation for that arrow; failed and superseded are terminal |
| `Store.OnlyDeleteAppRemoves` | internal/store/migrations/0002_releases.sql:1-12 | a row disappears only when its own app is deleted |
| `Store.RefusalChangesNothing` | internal/store/releases.go:267-281 | a refused operation leaves the tables as they were |
| `Store.ForeignLeavesRows` | internal/supervisor/supervisor.go:6-9 | every operation on another app leaves an app's row and its releases as they are and adds none |
| `Backoff.BackoffDoubles` | internal/supervisor/actor.go:27-37 | the first wait is 1000000000 ns, each next one twice the last up to 60000000000 ns |
| `Backoff.NineWaits` | internal/supervisor/actor.go:17-25 | the nine waits before the tenth failure add up to 243 seconds |
| `Backoff.PrunedListIsTheWindow` | internal/supervisor/actor.go:231-237 | pruning as failures age always leaves exactly the failures of the whole history that are younger than ten minutes at the latest one |
| `Backoff.WindowIsKept` | internal/supervisor/actor.go:231-242 | after k failures the list holds those of the last 600000000000 ns; with n of them the next wait is the n-th of 1, 2, 4, 8, 16, 32, 60, 60, 60 seconds, and there is none from the tenth on |
| `Backoff.RecentIsAFilter` | internal/supervisor/actor.go:231-236 | on any list, in order or not: exactly the failures younger than 600000000000 ns stay, in their order |
| `Backoff.ElevenMinutesApart` | internal/supervisor/actor.go:17-25 | a failure eleven minutes after the one before it waits a second |
| `Backoff.NoWindowHoldsElevenFailures` | internal/supervisor/actor.go:17-25 | if every failure but the last led to a restart, no ten minutes hold more than ten failures |
| `Backoff.Prune` | internal/supervisor/actor.go:231-236 | the filter in place: survivors at the front of the same array, in order, the rest untouched |
| `LifecycleSteps.StepKeepsInvariant` | internal/supervisor/actor.go:99-126 | every step of the system, taken or suffered, keeps the invariant that ties rows, route, actor and containers together |
| `LifecycleSteps.EveryReachableStateSatisfiesInvariant` | internal/supervisor/actor.go:99-126 | the invariant holds in every state of every run, crashes, recoveries and late route removals included |
| `LifecycleTheorems.StoresAgreeBetweenCommands` | internal/supervisor/supervisor.go:3-11 | in every run, between two commands: actor, rows and containers name the same release and instance, and so does the route unless it is missing |
| `LifecycleRoutes.RouteAgreesIff` | internal/supervisor/supervisor.go:206-228 | at every moment of every run the route is right if and only if no Destroy that had found no actor has removed it from a served app without a swap, destroy or crash since |
| `LifecycleRoutes.RouteMissingIff` | internal/supervisor/supervisor.go:206-228 | step by step: a route goes missing only by such a removal while the app is served, and stays so until a swap, a destroy or a crash |
| `LifecycleRoutes.LateRemovalIsHarmlessIff` | internal/supervisor/supervisor.go:206-228 | a removal decided by a lookup that found no actor leaves the route right if and only if no deploy has swapped since the lookup, or a destroy came after the last that did |
| `LifecycleRoutes.AServedAppCanLoseItsRoute` | internal/supervisor/supervisor.go:206-228 | from every new app a run leads, between commands, to a current instance that is up and no route to it |
| `LifecycleTheorems.InstancesBalance` | internal/supervisor/health.go:31-79 | every step accounts for the containers: after it there are those before it, with the one it started, without the one it stopped |
| `LifecycleTheorems.ExactlyOneOwner` | internal/supervisor/deploy.go:227-247 | a container that exists is exactly one of: the current instance, the candidate of the deploy in progress, draining |
| `LifecycleTheorems.GoneForGood` | internal/runtime/runtime.go:96-98 | a container that has been removed never comes back, over whole runs |
| `LifecycleTheorems.NoInstanceIsStoppedTwice` | internal/supervisor/deploy.go:227-247 | no step stops a container that an earlier step has stopped |
| `LifecycleTheorems.RouteMovesToApproved` | internal/supervisor/deploy.go:194-199 | the route only ever points at an instance that passed its health check or was adopted |
| `LifecycleTheorems.ApprovedByCheckOrAdoption` | internal/supervisor/health.go:31-79 | an instance counts as approved only by a check that passed on the candidate or by adoption at recovery |
| `LifecycleTheorems.RouteIsNeverDropped` | internal/supervisor/actor.go:224-227 | once an app is routed only a destroy, the late removal of one that found no actor, or a crash takes its route away |
| `LifecycleTheorems.RoutedInstanceIsNotStopped` | internal/supervisor/deploy.go:227-247 | the supervisor stops the routed instance only after its exit was reported or because the app is destroyed |
| `LifecycleTheorems.DrainingUntilItsOwnStop` | internal/supervisor/deploy.go:227-247 | a draining instance exists and drains since the same moment until its own drain stops it, short of a crash |
| `LifecycleTimed.RequestsOfTheOldRouteFinish` | internal/router/router.go:179-189 | a request that loaded the table while it named an instance has the whole drain grace before a drain stops that instance, unless the daemon shuts down |
| `LifecyclePlans.CommandIsPlanned` | internal/supervisor/deploy.go:50-107 | in every run, at the moment a command is taken: a push will have its commit and manifest, no image and the config of that moment; a redeploy the live row's image, commit and manifest and the config of that moment; a rollback all of the earlier row, refused if and only if no release of that version is built and not live |
| `LifecyclePlans.RowIsAsAsked` | internal/supervisor/deploy.go:98-123 | from the command to the verdict the row of the deploy holds exactly that, whatever is configured meanwhile |
| `LifecyclePlans.PushRunsWhatWasBuilt` | internal/supervisor/deploy.go:125-147 | the image in a push's row is one the builder has answered with since the command was taken |
| `LifecyclePlans.LiveRowIs` | internal/store/releases.go:174-185 | the live release of an app is the row with status live, if there is one |
| `LifecycleDeploys.DeployRemembersItsStart` | internal/supervisor/deploy.go:108-114 | from the command, or the firing of the timer, to the verdict the app gets no row but the deploy's own |
| `LifecycleDeploys.DeployIsAllOrNothing` | internal/supervisor/deploy.go:108-225 | for every command and every scheduled restart: an error leaves current instance and live release as they were and any new row failed; success leaves the new row live, the one before superseded, current on an instance of the new row, and row and container with the commit, manifest and config the command asked for when it was taken; the route follows, unless a late removal has taken it |
| `LifecycleDeploys.FailureHasACause` | internal/supervisor/deploy.go:24-225 | a verdict of no means that there was nothing to go to, or that since the command was taken a read or write failed, nothing was built, no instance started, the check was not passed, or the pusher hung up |
| `LifecycleDeploys.DeployMovesTheRoute` | internal/supervisor/deploy.go:194-217 | with no late removal between command and verdict, an error leaves the route where it was and success leaves it at the new instance |
| `LifecycleRows.StoreCallsAreLegal` | internal/supervisor/deploy.go:108-225 | every MarkBuilt, MarkFailed and SetLive of a deploy starts from a status the store accepts |
| `LifecycleRows.HistoryIsNeverRewritten` | internal/store/releases.go:36-39 | over any stretch of any run every release keeps its content and only its status moves on |
| `LifecycleRows.WhatRunsIsWhatTheRowSays` | internal/supervisor/deploy.go:165-179 | every container was started with the image, commit, config and manifest its row holds, at every moment |
| `LifecycleRows.RollbackChainKeepsContent` | internal/supervisor/deploy.go:62-74 | at every moment of every run, following the rollback notes from any release ends at one with the same image, commit, config and manifest that was not itself a rollback |
| `LifecycleCrashes.PendingRestart` | internal/supervisor/actor.go:228-248 | in every run a pending restart means the current instance exited, n failures in the last ten minutes with n from 1 to 9, and is due the n-th wait after the last of them |
| `LifecycleCrashes.EveryFailureWaited` | internal/supervisor/actor.go:228-248 | with no reset and no reconcile restart every failure comes no earlier than the wait that the one before it had earned, as the n-th of its ten minutes with n at most 9 |
| `LifecycleCrashes.AtMostTenFailuresInAnyWindow` | internal/supervisor/actor.go:17-25 | in every run, with no reset and no reconcile restart, no ten minutes hold more than ten failures |
| `LifecycleCrashes.FailureEarnsItsWait` | internal/supervisor/actor.go:228-248 | in every run each failure is answered at once: the n-th of its last ten minutes by a timer with the n-th wait, from the tenth on by none |
| `LifecycleCrashes.OnlyAFailureSchedules` | internal/supervisor/actor.go:228-259 | a restart is scheduled only by the exit of the current instance or by a scheduled restart that failed |
| `LifecycleCrashes.CrashLoopEndsAtTheTenth` | internal/supervisor/actor.go:228-259 | from a clean history on, with no reset and every attempt failing at most D after it was due, 243 s + 9 D < 600 s: the n-th failure is answered with a wait of backoff(n) for n up to 9 and with nothing for the tenth, there is no eleventh, and after the tenth nothing is pending |
| `LifecycleCrashes.LongUptimeWaitsOneSecond` | internal/supervisor/actor.go:228-248 | if no instance has taken over in the ten minutes before an exit counts, the restart comes after one second, whatever failed before |
| `LifecycleCrashes.GivenUpAtTheThreshold` | internal/supervisor/actor.go:238-242 | in every run, once the last ten failures lie within ten minutes, with no reset and no reconcile restart, the instance is gone, nothing is scheduled and nothing in progress |
| `LifecycleCrashes.GivenUpUntilACommand` | internal/supervisor/actor.go:17-20 | after giving up nothing starts and nothing is scheduled until a command or a crash |
| `LifecycleCrashes.ExitCountsOnce` | internal/supervisor/actor.go:202-211 | a report that counted, or that is about a replaced instance, changes nothing however often it comes |
| `LifecycleCrashes.ReportedIsSpent` | internal/supervisor/actor.go:202-211 | a report that matters counts, and the instance it is about can never count again |
| `LifecycleCrashes.ReplacedIsSpent` | internal/supervisor/actor.go:202-211 | the instance a deploy replaces can never again count as an exit |
| `LifecycleCrashes.KeepFindsTheFirst` | internal/supervisor/reconcile.go:57-68 | what is kept is the first listed instance that runs, has an address and the live release's label; none is kept if and only if none qualifies |
| `LifecycleCrashes.RecoveryLeavesNothingHalfDone` | internal/supervisor/reconcile.go:36-113 | every completed recovery of every run, after any cut-off ones: no open row, no container but the adopted one, adopted if and only if one qualifies, routed, of the live release |
| `Actor.Router.Set` | internal/router/router.go:139-148 | the new table is the old one with the host pointing at the instance |
| `Actor.Router.Remove` | internal/router/router.go:151-162 | the new table lacks the host and nothing else |
| `Actor.Actor.Handle` | internal/supervisor/deploy.go:24-150 | the actor as a program, with the world running between any two statements: its run is a run of the step system, an error means nothing happened and has a cause outside the actor, success of a push, redeploy or rollback means all of it did, with the content asked for, success of a restart that the live release has an instance that is current and, unless a late removal came, routed; a new release or a manual restart leaves no failure counted |
| `Actor.Actor.RemoveRoute` | internal/supervisor/supervisor.go:214-227 | the second half of a destroy that found no actor: the host goes from the table whatever it names, if such a destroy is pending |
| `Actor.Actor.Deploy` | internal/supervisor/deploy.go:24-150 | any kind of command leads, statement by statement, to its verdict |
| `Actor.Actor.MakePlan` | internal/supervisor/deploy.go:50-107 | a push's new row has no image, its commit and manifest and the config now; a redeploy's the live row's image, commit and manifest and the config now; a rollback's all of the earlier row; refused if and only if there is no live row to redeploy, or no built release of that version that is not live |
| `Actor.Actor.LaunchAndSwap` | internal/supervisor/deploy.go:155-225 | from a row with an image to an instance the router points at, or back with the row ended |
| `Actor.Actor.Start` | internal/supervisor/health.go:32-79 | an instance of the release that passed its check, or none left behind |
| `Actor.Actor.MoveOn` | internal/supervisor/deploy.go:197-217 | the actor's fields after the swap: the new current, no pending restart, a clean history for a new release, the old instance handed to a drain |
| `Actor.Actor.Failed` | internal/supervisor/actor.go:228-248 | one failure more in the pruned list, and the restart it earns or none |
| `Actor.Actor.OnExit` | internal/supervisor/actor.go:202-222 | only the first report about the current instance counts: the container goes, the failure counts, a restart is scheduled or not |
| `Actor.Actor.ScheduledRestart` | internal/supervisor/actor.go:252-259 | the timer's restart: if it does not come up, route, current and rows are as they were and one failure more is counted and answered with the next timer; if it does, the live release has a current instance that is routed and the failures stay |
| `Actor.Actor.EndDrain` | internal/supervisor/deploy.go:233-247 | the retire goroutine stops its instance once the drain grace is over or the daemon shuts down, not before, and nothing else |
| `Actor.Actor.Destroy` | internal/supervisor/actor.go:162-185 | nothing of the app is routed, current or scheduled; what is left in the runtime is draining |
| `Registry.Supervisor.ActorFor` | internal/supervisor/supervisor.go:255-269 | the app's actor, a fresh one only if none is there, none once the supervisor ends |
| `Registry.Supervisor.Offer` | internal/supervisor/supervisor.go:233-250 | a command is taken only by an actor that still serves and is the one in the map |
| `Registry.Supervisor.Forget` | internal/supervisor/supervisor.go:283-297 | an actor that has returned removes exactly itself |
| `Registry.Supervisor.Lookup` | internal/supervisor/supervisor.go:211-213 | a destroy finds no actor if and only if every actor the name ever had is gone |
| `Registry.OneActorPerName` | internal/supervisor/supervisor.go:6-9 | never two actors at work for one app |
| `Reconcile.Daemon.Group` | internal/supervisor/reconcile.go:45-48 | the listing by app label, in the listing's order |
| `Reconcile.Daemon.Sift` | internal/supervisor/reconcile.go:56-68 | of an app's instances at most one is kept, the rest removed and counted as exited or orphaned |
| `Reconcile.Daemon.FailOpenReleases` | internal/supervisor/reconcile.go:98-109 | every building or starting row is failed, each counted once, and no other row changes |
| `Reconcile.Daemon.Run` | internal/supervisor/reconcile.go:36-113 | no open row is left; of the listed containers only the adopted ones; Removed counts the listed instances of apps of the store that do not run, Orphans those that run and are not adopted and all whose label is no app, Adopted+Restarted the apps with a live release, Failed the open rows; what any one app sees of it is the lifecycle's recovery of that app |
| `Reconcile.RunIsRecover` | internal/supervisor/reconcile.go:36-113 | projected to one app, the rows, containers, route and current instance that the loops leave are those of the one-step recovery with the app's part of the listing |
| `Reconcile.WhatIsLeftServes` | internal/supervisor/reconcile.go:27-35 | a container that is left runs under its app's live label, is its actor's current instance and is routed |
| `Reconcile.SettledCounts` | internal/supervisor/reconcile.go:70-87 | every app that should run is adopted or restarted, never both |
| `RateLimit.Limiter.Allow` | internal/router/ratelimit.go:32-50 | one request: sweep if a new client would be the 10001st, refill, take a token or refuse |
| `RateLimit.Limiter.Sweep` | internal/router/ratelimit.go:53-60 | exactly the buckets idle for the full time are dropped |
| `RateLimit.SetRateLimit` | internal/router/router.go:129-135 | no limiter for a rate of 0 or less; otherwise one of rps tokens a second and 2 rps at most |
| `RateLimit.TokenBucketIsExact` | internal/router/ratelimit.go:8-12 | the limiter for rps requests a second, sweeping included: a request is admitted if and only if for every earlier request of its client the admissions since then plus this one are at most 2 rps plus rps for every second in between |
| `RateLimit.WindowIsBounded` | internal/router/ratelimit.go:8-12 | it admits, in no window of T seconds, more than 2 rps + rps * T of one client |
| `RateLimit.SpacedClientIsNeverRefused` | internal/router/ratelimit.go:8-12 | it never refuses a client whose requests are at least 1000000000 / rps nanoseconds apart |
| `RateLimit.SweepIsUnobservable` | internal/router/router.go:129-135 | with burst twice the rate the limiter that sweeps answers every interleaving of clients as one that never forgets |
| `RateLimit.SweepIsExactIff` | internal/router/ratelimit.go:53-60 | for whole rates and bursts a swept bucket was full, whatever it held, if and only if the rate divides the burst in nanoseconds |
| `Lines.Writer.Write` | internal/lines/lines.go:22-38 | the complete lines go out and the rest stays; after a failed Emit nothing is lost |
| `Lines.Writer.Flush` | internal/lines/lines.go:42-49 | what is buffered goes out as a last line, nothing if nothing is |
| `Lines.ChunksDoNotMatter` | internal/lines/lines.go:1-6 | with no maximum the lines do not depend on how the stream was cut into writes |
| `Lines.LinesAreUnique` | internal/lines/lines.go:11-14 | the pieces are the only way to split a stream into newline-terminated lines and a rest |
| `Lines.StreamOfLines` | internal/lines/lines.go:11-14 | writes of any cutting of a stream of lines, then a flush, emit the texts of those lines, each without its newline and one carriage return before it, and no empty last one |
| `Lines.WritesAreTheInput` | internal/lines/lines.go:22-38 | over any sequence of writes and for any maximum the lines emitted are the raw pieces taken, trimmed, and the raw pieces and the buffer are the stream, byte for byte |
| `Lines.WritesBelowMaximum` | internal/lines/lines.go:11-15 | with a maximum that no line of the stream reaches, writes emit and keep what they do without one, however the stream is cut |
| `Lines.TrimTakesOneReturn` | internal/lines/lines.go:33 | one carriage return is taken off the end of a line and nothing else |
| `Lines.RestIsShort` | internal/lines/lines.go:12-14 | with a maximum fewer bytes than that stay buffered, and never a newline |
| `Logs.Ring.Push` | internal/logs/logs.go:325-331 | the ring holds the last lines ever pushed, as many as it has room for |
| `Logs.Ring.Last` | internal/logs/logs.go:334-347 | the last min(k, size) lines ever pushed, oldest first |
| `Logs.Subscriber.Send` | internal/logs/logs.go:296-314 | a line goes out behind a line of stream ashore that says dropped N lines, if N were missed, or is counted as missed; it gets through if there is room for both; the reader may run at any moment |
| `Logs.ReaderIsToldEverything` | internal/logs/logs.go:285-291 | for every interleaving: each line in the channel history is the log's line at the place the markers before it say, the pending count completes it, reported drops are the marker totals plus pending, the channel stays within capacity |
| `Logs.HistoryPlacesEveryLine` | internal/logs/logs.go:285-291 | a history accounts for a log only if position by position it says which line of the log each line is |
| `Logs.Sink.Append` | internal/logs/logs.go:210-228 | the ring and every reader get the line, and the observer is told of exactly the readers that did not |
| `Logs.Sink.Subscribe` | internal/logs/logs.go:243-265 | a reader starts with the last lines of the ring and room for 64 more |
| `Logs.Sink.Close` | internal/logs/logs.go:269-283 | every channel is closed and later lines are discarded |
| `RotatingFile.RotatingFile.WriteLine` | internal/logs/file.go:53-63 | the record is the last on disk; without a rotation only the current file grows, with one only the oldest file is lost; what is on disk stays a suffix of everything written, within the size limit; no gap appears unless the daemon is killed in a rotation of numbered files |
| `RotatingFile.RotatingFile.Rotate` | internal/logs/file.go:67-81 | each numbered file is the one before it, the fifth gives way only to another, and the current one is new; killed before any of the renames, what is on disk is in order, and a gap is left if and only if there was a file with the number that the last rename moved; none after all renames |
| `RotatingFile.OnDiskInOrder` | internal/logs/file.go:14-17 | what is on disk is files 5, 4, 3, 2, 1 and the current one, end to end |
| `RotatingFile.RotatingFile.Open` | internal/logs/file.go:36-48 | opening keeps what is there and measures it |
| `RotatingFile.RenameToFree` | internal/logs/file.go:71-79 | moving a file up to a free number keeps the order of the records |
| `RotatingFile.KilledRotationLeavesAGapIff` | internal/logs/file.go:71-76 | at every kill point, for any files without gaps: a gap is left if and only if something has moved and the file moved last was there |
| `Sse.Writer.Send` | internal/sse/sse.go:194-207 | one frame byte for byte: an event line if there is a name, a data line per line of the data, a blank line |
| `Sse.Writer.Write` | internal/sse/sse.go:67-71 | complete lines become unnamed events in order, the rest waits |
| `Sse.Writer.Done` | internal/sse/sse.go:107-112 | what is buffered goes first, then the event done with empty data |
| `Sse.Writer.Fail` | internal/sse/sse.go:115-120 | what is buffered goes first, then the event error with the text |
| `Sse.Read` | internal/sse/sse.go:149-189 | the loop of the reader delivers what its line-by-line specification says, and its verdict; if the callback refuses an event, a proper prefix of that |
| `Sse.EachLine` | internal/sse/sse.go:175-183 | name and data lines are taken, comments and other fields skipped, and data with no space after the colon is empty |
| `Sse.EachFrame` | internal/sse/sse.go:157-174 | a blank line ends the stream at done and at error, drops an event without data and delivers any other with its lines joined |
| `Sse.StreamsRoundTrip` | internal/sse/sse.go:145-189 | any sequence of sendable events with comments between them arrives in order, then success after done and failure after error, with the text that was sent if and only if no line of it ends in a carriage return |
| `Sse.EventRoundTripsIff` | internal/sse/sse.go:191-207 | an event arrives as sent if and only if its name has no newline, is no verdict, and neither name nor any data line ends in a carriage return |
| `Sse.CutStreamHasNoVerdict` | internal/sse/sse.go:36-38 | any cut of a stream delivers a prefix of its events and no verdict |
| `Sse.LinesAreMessages` | internal/sse/sse.go:40-43 | what the writer makes of lines of output is a stream of unnamed events |
| `Hook.Handle` | internal/hook/server.go:180-194 | the daemon's bytes: each output line behind a 1, then the line -----> deploy failed with the error and the status 21, or the status 20 |
| `Hook.Refuse` | internal/hook/server.go:202-205 | a refused request is answered with the reason and status 1 |
| `Hook.RefusalExitsZeroIff` | internal/hook/server.go:202-205 | the hook passes such an answer if and only if a later line of the reason is a status of zero behind lines that pass; a reason of one line is printed and rejects |
| `Hook.Call` | internal/hook/client.go:113-140 | the loop of the hook: output is printed, the first status is the exit code, anything else is 1 |
| `Hook.PushVerdictIsFaithful` | internal/hook/server.go:153-195 | for any output and any one-line error text the hook prints the deployer's lines in order and exits 0 exactly when the deploy succeeded |
| `Hook.OutputIsTheDeployers` | internal/hook/server.go:180-186 | while no line of the output reaches 65536 bytes, the lines sent are the lines of the output as a whole, however it was cut into writes |
| `Hook.LongLinesAreCut` | internal/hook/server.go:42-44 | of any output: the lines sent are the whole of it cut where its lines end and elsewhere only every 65536 bytes |
| `Hook.PlainOutputIsPrinted` | internal/hook/server.go:153-195 | plain lines of fewer than 65536 bytes are printed as they were written, and then the error if there is one |
| `Hook.StatusIsTheExitCode` | internal/hook/client.go:126-131 | the exit code is the number of the first status, 1 if that is negative or no 64-bit number |
| `Hook.NoStatusRejects` | internal/hook/client.go:132-140 | an unknown band rejects the push whatever follows, and so does an answer without a status |
| `Hook.SuccessIsHeardIff` | internal/hook/client.go:113-114 | through a scanner of 1 MiB a line a successful deploy passes if and only if no line sent has more than 1048574 bytes |
| `Hook.SmallWritesAreHeard` | internal/hook/server.go:42-44 | writes of at most 983040 bytes never overrun that scanner |
| `Hook.LongLineIsNotHeard` | internal/hook/server.go:42-44 | a single write of a longer line makes the push of a successful deploy exit 1 |
| `Hook.CutFailurePassesIff` | internal/hook/client.go:99-102 | a connection can break such that a push whose deploy failed passes, if and only if a later line of the error text begins like a status of zero and those between pass as output |
| `Hook.CutAnswerNeverPasses` | internal/hook/client.go:99-102 | wherever the connection breaks, a push whose deploy failed is rejected, for every error text without such a line |
| `Hook.OneLineIsSafe` | internal/hook/client.go:99-102 | an error text of one line has none |
| `Hook.ZeroPrefixIff` | internal/hook/client.go:126-130 | a line begins like a status of zero if and only if it begins with 20, 2+0 or 2-0 |
| `Hook.CutErrorTextCanPass` | internal/hook/client.go:99-102 | an error text for which the complete answer is rejected and a cut one passes |
| `Hook.CutRefusalPassesIff` | internal/hook/server.go:202-205 | the answer to a refused request can pass when cut under the same condition on its reason |
| `Hook.CutSuccessPassesIff` | internal/hook/client.go:99-102 | a successful deploy passes if and only if its status digit has arrived |
| `Hook.FailedDeployExitsZeroIff` | internal/hook/server.go:187-192 | a failed deploy passes if and only if a later line of its error text is a status of zero and the lines between pass as output |
| `Hook.ErrorTextCanPass` | internal/hook/hook.go:33-45 | an error text for which the promise fails |
| `Decimal.FormatParses` | internal/manifest/manifest.go:196-206 | a printed number parses to itself if it has 64 bits and does not parse otherwise |
| `Sizes.Bytes.UnmarshalText` | internal/manifest/manifest.go:210-227 | the value is stored if the text is a size and left alone if not |
| `Decimal.OnlyDigitsParse` | internal/manifest/manifest.go:222 | a text that parses is digits with a sign or none in front |
| `Decimal.DigitsAreDecimal` | internal/manifest/manifest.go:196-206 | one more digit is ten times the number and the digit |
| `Sizes.SizesInNumbers` | internal/manifest/manifest.go:210-227 | a number with no unit, k, m or g, in either case and with space around it, is the number times 1, 1024, 1048576 or 1073741824, refused if and only if that is negative or more than 4611686018427387904 |
| `Sizes.AcceptedSizesAreWritten` | internal/manifest/manifest.go:210-227 | nothing else is a size: every accepted text is a number and a unit in either case with space around them, and its value the number times what the unit is worth |
| `Sizes.PrintedInUnits` | internal/manifest/manifest.go:196-206 | a count is printed in the largest unit it is a multiple of |
| `Sizes.AcceptedSizesFit` | internal/manifest/manifest.go:222-226 | every accepted size is number times unit, at most 1 << 62: the shift never overflows |
| `Sizes.SizesRoundTripIff` | internal/manifest/manifest.go:196-227 | a 64-bit count survives printing and parsing if and only if it lies between 0 and 1 << 62; any other is refused |

## Left out

* Panics and their recovery, logging, metrics, progress text, the `Status` strings and the `restarts` counter (its comment calls it automatic restarts, internal/supervisor/actor.go:51, and the code counts manual ones too): no promise here rests on them.
* Failed `runtime.Stop` calls and failed store writes after the row exists; a failed `SetLive` is only logged by the source.
* Snapshots that do not decode, at deploy or at adoption, and the JSON validity checks of `CreateRelease`: config and manifest are opaque texts.
* The build semaphore: waiting for a slot can only delay or cancel, and a cancelled wait is a build that fails.
* Per-instance stop grace, and the reuse of a host port by a later instance: an instance id stands for its address.
* Deleting an app's rows while a deploy of it runs, and creating it again under the same name while an instance drains.
* That a drain ends at all, or any other progress: the lifecycle theorems are about safety. A draining container is stopped by its own drain and at most once.
* Probe timing and the TCP hold: only the outcome of a health check is modelled.
* Host-name normalisation, the proxy itself and how a client's key is found.
* Rounding of 64-bit floats in the limiter: tokens are real numbers. Requests that read the clock in one order and take the limiter's lock in another: the streams of its theorems are in order of time.
* Nonces, request parsing, update lines and path checks of the push hook; its connection either delivers a prefix of the bytes or all of them.
* The scanners' limit of 1 MiB a line, but in `Hook.SuccessIsHeardIff` and what follows it; write errors of streams whose reader has gone.
* Non-ASCII space and case in sizes; CPU quotas and durations.
* The format of a log record and errors of the file system: a record is one text that is written whole.
* Chunk independence of the line splitter for lines that reach the maximum: a newline already in the buffer wins over the cut, so the source does not promise it.
- Store.Store.CreateRelease: a snapshot that is not JSON is refused by the source; config and manifest are opaque texts here and always pass.
- Actor.Router.Set: a request that has loaded the table before keeps the one it has; the table is a value here, so that holds, but requests are not modelled.
- Actor.Actor.MakePlan: reading and parsing the manifest of a pushed commit is a read that may refuse the command, in `TakeNew`; its text is part of the command.
- Actor.Actor.Handle: `Yield` stands for everything that can run between two statements; a crash there is a step of the lifecycle model but no method of the class.
- Logs.Sink.Append: the record on disk is modelled on its own, in `RotatingFile`.
- LifecycleTimed.RequestsOfTheOldRouteFinish: how long a request lasts is the caller's; what is proved is the time it has.
- RotatingFile.RotatingFile.WriteLine: a record half written when the machine stops is not modelled.
