# Verification of the secret watchers

Routes refer to TLS secrets, and the program watches every referred secret with an informer of its own. This project
models that machinery on values and as objects, and proves what it is meant to keep.

**The reference-counted watcher (`monitorv4`, `routecontroller`).** Four layers, each resting on the one below.

- `ItemMonitor.dfy`, `ItemProtocol.dfy`: one monitor with its lock, its `stopped` flag and its channel. The protocol
  takes the goroutines apart into single instructions (starter, watcher, any number of stoppers, the first adder, a
  context that may be cancelled at any moment) and shows that they refine whole critical sections. `ItemProgress.dfy`
  shows that starts, stops, cancellations and the first handler go through from every reachable state.
- `SecretSpec.dfy`, `SecretProtocol.dfy`, `SecretWatch.dfy`: the map of monitors. The specification performs whole
  operations; the protocol splits them at every section of an item lock, lets cancellations, watchers and informers
  step in between, and is proved to behave like the whole operations that were asked for, with the same outputs;
  `SecretProgress.dfy` shows that every operation finishes, and what a new monitor meets before its first handler. The
  class is the code over objects, proved equal to the specification.
- `ManagerSpec.dfy`, `SecretManager.dfy`: the registry of routes, with the conservation laws that span both layers.
  `PairSpec.dfy` is the registry keyed by pairs of namespace and name, which the one keyed by text refines.
- `RouteController.dfy`, `WorkQueues.dfy`, `RouteWorker.dfy`: the route informer's callbacks, the queue, one worker, and
  the notifications. The main result is convergence: replaying what is queued over the registry always gives the live
  routes. `RouteHistory.dfy` follows which route object each stored handler holds, and `RouteProgress.dfy` what becomes
  of events and notifications.

An informer is an environment object: handlers, a store, and flags for having run, synced and ended. It is assumed that
it has not synced before it runs, that adding a handler fails only after it ended, that it ends only after its channel
was closed, and that its store holds only what its selector matches. Removing a handle it does not know may fail or
succeed silently (`lenient`). What the environment does to a new monitor before its first handler is the parameter `Env`.

**The structural diff (`util`).** `Diff.dfy`: values, paths, the difference as a function, and the recursive comparison
that appends to a shared list, proved equal to it. The key order of maps is an arbitrary parameter.

**The per-route watcher (`monitorv3`).** `RouteNames.dfy` is the codec of the names `route_secret`;
`RouteMonitorSpec.dfy`, `RouteManagerSpec.dfy` and `RouteWatch.dfy` are its monitors and its registry.

**The retry policy (`main.go`).** `Retry.dfy`: the rate-limited queue under `handleErr`. `MainLoop.dfy`: the loop around
it as it is written, which never reaches the policy, and a driver that does what the policy is meant for.

Handles carry an identity that the owner counts up; a monitor carries the number of its creation. Both stand for Go
pointers. `closes` counts how often a channel was closed, because the second close would panic.

Where the code does not do what one might expect, a lemma shows it:

- A monitor that is started again after a stop closes its channel twice (`ItemMonitor.DoubleCloseExactly` says exactly
  when); the map of monitors starts each monitor once.
- A cancelled monitor stays in the map, and its key is stuck for good: adding and removing both fail
  (`SecretSpec.StuckKey`, `ManagerSpec.StuckRoute`; `SecretSpec.StuckKeyIsReached` and `ManagerSpec.StuckRouteIsReached`
  are runs that get there).
- Removing one handle twice breaks the count if the informer is lenient (`SecretSpec.RemovingTwiceBreaksCounts`;
  `SecretSpec.RemoveKeepsCountsIff` says exactly when counts stay right); the registry never does that.
- A namespace or a name with a slash can be read under the registration of another pair, and only such a one can
  (`PairSpec.ReadsOwnNamespaceIff`). Namespaces in a cluster have none.
- The stored handler of a live route can hold an older version of the route, since an update that keeps the secret is not
  queued: `RouteHistory.OlderVersionIsHeld` is a run that gets there, and `RouteHistory.StoredVersion` says exactly when.
- With a second worker, a route could be registered with the handler of another one
  (`RouteController.TwoWorkersMisroute`).
- Registering a route again in `monitorv3` forgets a handle for good (`RouteManagerSpec.Conservation`,
  `RouteManagerSpec.EmptiesIff`; `RouteManagerSpec.LeakIsReached` is a run that gets there).
- The comment at `main.go:107` speaks of five retries, and `handleErr` does that. But `main.go:64-67` returns before it for
  every text key, and `main.go:70` panics for any other, so it is never reached (`MainLoop.NothingIsTried`,
  `MainLoop.OnePass`); `routecontroller/main.go:60-63` does not call it yet.

## Model

| member | source | states |
|---|---|---|
| Base.PathKeyCollisions | monitorv4/manager.go:116-118 | exactly which pairs of namespace and name share a key text |
| Base.PathKeyInjective | monitorv4/manager.go:116-118 | without a slash in namespaces the key text identifies namespace and name |
| Base.PathKeyText | monitorv4/manager.go:116-118 | the key text begins with the namespace, goes on with a slash, and ends with the name |
| ItemMonitor.DoubleCloseExactly | monitorv4/monitor.go:54-97 | over any sequence of starts and stops, the channel is closed twice iff Start, Stop, Start, Stop occur in this order |
| ItemMonitor.ExecAlternates | monitorv4/monitor.go:54-97 | the number of closes and the flag are determined by the longest alternation of starts and stops |
| ItemMonitor.GetItemExact | monitorv4/monitor.go:132-137 | a lookup answers exactly with the cached object of the monitored namespace and name |
| ItemMonitor.WatchedButNotFound | monitorv4/monitor.go:132-137 | without a namespace an object of the monitored name is watched and may be cached in any namespace, but no lookup ever finds one |
| ItemMonitor.SingleItemMonitor.constructor | monitorv4/monitor.go:37-45 | a new monitor counts as stopped, and its channel is open |
| ItemMonitor.SingleItemMonitor.StartInformer | monitorv4/monitor.go:54-82 | the critical section of a start: a stopped monitor runs again, a running one is left alone |
| ItemMonitor.SingleItemMonitor.StopInformer | monitorv4/monitor.go:86-97 | stops a running monitor and closes its channel, and refuses otherwise |
| ItemMonitor.SingleItemMonitor.AddEventHandler | monitorv4/monitor.go:101-118 | adds a handler with a new handle for the monitor's key, unless stopped or refused |
| ItemMonitor.SingleItemMonitor.RemoveEventHandler | monitorv4/monitor.go:121-130 | removes the handle, unless stopped or refused |
| ItemMonitor.SingleItemMonitor.Lookup | monitorv4/monitor.go:134-137 | reads the cache at the text of the monitored key |
| ItemProtocol.InvStep | monitorv4/monitor.go:54-118 | every instruction of every thread keeps the invariant over lock, flag, channel, watcher and winners |
| ItemProtocol.ClosedOnce | monitorv4/monitor.go:86-97 | in every interleaving the channel is closed at most once, `StopInformer` returns true exactly that often, and while the lock is free the channel is closed iff the monitor was started and is stopped |
| ItemProtocol.WatcherGoneMeansClosed | monitorv4/monitor.go:63-75 | in every interleaving, a watcher that has ended leaves a closed channel |
| ItemProtocol.AdderSeesStart | monitorv4/secret_monitor.go:113-135 | the first handler after the sync wait fails only if the monitor was stopped after it was started |
| ItemProtocol.NoLostCancellation | monitorv4/monitor.go:54-97 | a cancellation before, during or after the start is never swallowed: lock holder and watcher alone close the channel and end the watcher within 27 steps |
| ItemProtocol.StepIsSection | monitorv4/monitor.go:54-118 | every instruction is invisible or one whole critical section of the monitor |
| ItemProtocol.SeenOk | monitorv4/monitor.go:54-118 | what the other layers see of a reachable state is a well-formed monitor |
| ItemProgress.StartGoesThrough | monitorv4/monitor.go:54-82 | from every reachable state, at most eight steps of the holder of the lock and of the starter lead to a started monitor with a running informer and a watcher |
| ItemProgress.FirstHandlerIsAdded | monitorv4/secret_monitor.go:113-135 | where nobody cancels or stops, at most nine steps of the starter, the informer and the adder lead to an added handler, with the channel open |
| ItemProgress.StopGoesThrough | monitorv4/monitor.go:86-97 | a call of `StopInformer` outside the start section returns within eight steps and leaves the channel of a started monitor closed; made while the lock is free, it returns true iff the monitor runs |
| ItemProgress.CancellationStops | monitorv4/monitor.go:63-75 | where nobody calls `StopInformer`, a cancellation in any reachable state leads in at most 36 steps to an ended watcher that alone was told true, with the channel closed once |
| SecretSpec.InvStep | monitorv4/secret_monitor.go:100-178 | operations with any handles, cancellations and informer steps keep the invariant of the map |
| SecretSpec.AddSucceedsIff | monitorv4/secret_monitor.go:100-139 | adding fails exactly for a nil handler or a stopped monitor, with the error of the case; otherwise exactly this handler is added under a new handle and counted at its key, in a monitor that was there or is born now, and nothing else changes |
| SecretSpec.RemoveSucceedsIff | monitorv4/secret_monitor.go:143-178 | removing fails exactly for a nil registration, a missing or stopped monitor or a refused handle, with the error of the case and no change; otherwise exactly this handle goes, the count drops by one, and the last one stops the monitor and deletes the key |
| SecretSpec.EnvironmentEffect | monitorv4/monitor.go:63-75 | a cancellation stops exactly its monitor and closes its channel if that was open; the end of an informer and an update of its cache change exactly that; counts, handlers and the map stay |
| SecretSpec.ReadOutcome | monitorv4/secret_monitor.go:181-217 | reading answers an object iff it is the cached one of the namespace and name of the handle, and otherwise says which of registration, monitor and object is missing |
| SecretSpec.RemoveKeepsCountsIff | monitorv4/secret_monitor.go:155-175 | counts equal live handlers after a removal iff there is no running monitor to remove from, or the informer is strict, or the handle is live |
| SecretSpec.RemovingTwiceBreaksCounts | monitorv4/secret_monitor.go:161-175 | a handle removed twice stops a monitor that still has a handler |
| SecretSpec.StuckKey | monitorv4/monitor.go:101-130 | a cancelled monitor in the map stays there in every later state, and its key can neither be added to nor removed from |
| SecretSpec.StuckKeyIsReached | monitorv4/monitor.go:63-69 | an add and a cancellation lead to a stuck key |
| SecretSpec.NothingLeaks | monitorv4/secret_monitor.go:100-178 | in every run no channel is closed twice, and every monitor outside the map has a closed channel |
| SecretProtocol.Simulation | monitorv4/secret_monitor.go:100-178 | each locked section inside an operation is invisible or performs one whole operation with the same output |
| SecretProtocol.StepsRefineWholeOperations | monitorv4/secret_monitor.go:100-178 | every interleaved run has the outputs and the final state of a run of whole operations; these are the operations that the run asked for, with the same arguments and in the same order, but for the last one while it has not taken effect; each has one output, but for the one in progress |
| SecretProtocol.WhenLockIsFree | monitorv4/secret_monitor.go:100-178 | whenever the map's lock is free, the operations asked for, performed whole and in order, give the same state and one output each; mapped monitors run with a positive count or are stopped, and dropped ones have a closed channel |
| SecretProtocol.CountsWhenLockIsFree | monitorv4/secret_monitor.go:161-168 | if only live handles are removed, every count equals the live handlers of its key whenever the lock is free |
| SecretProtocol.LastRemovalDeletes | monitorv4/secret_monitor.go:168-175 | the removal that reaches zero deletes the key and returns no error, whoever won the race to stop the monitor |
| SecretProtocol.DoneStaysDone | monitorv4/secret_monitor.go:168-175 | a channel that was closed stays closed, once, through everything that follows |
| SecretProgress.OperationsFinish | monitorv4/secret_monitor.go:100-178 | from every reachable state at most six steps, of the operation in progress and the new monitor it waits for, free the lock, with the output of that operation and no other |
| SecretProgress.FirstAddMeetsItsEnvironment | monitorv4/secret_monitor.go:111-138 | the add that creates a monitor behaves like the whole one whose environment is what happened meanwhile: cancelled iff a watcher stopped it, ended iff its informer returned, with the cache of the last sync or update |
| SecretWatch.Started | monitorv4/secret_monitor.go:113-122 | a new monitor is started, synced, and perhaps already cancelled |
| SecretWatch.SecretMonitor.constructor | monitorv4/secret_monitor.go:71-76 | an empty map |
| SecretWatch.SecretMonitor.AddSecretEventHandler | monitorv4/secret_monitor.go:100-139 | new state and result are those of the specification, the invariant is kept, and only new objects join those it owns |
| SecretWatch.SecretMonitor.Create | monitorv4/secret_monitor.go:111-128 | the monitor of a missing key is created, started and put in the map |
| SecretWatch.SecretMonitor.Attach | monitorv4/secret_monitor.go:130-138 | the handler is added and counted, or nothing changes |
| SecretWatch.SecretMonitor.Detach | monitorv4/secret_monitor.go:161-177 | the handler is removed and uncounted, and the last one drops the monitor, or nothing changes |
| SecretWatch.SecretMonitor.RemoveSecretEventHandler | monitorv4/secret_monitor.go:143-178 | new state and result are those of the specification, and the invariant is kept also for stale and repeated handles |
| SecretWatch.SecretMonitor.Drop | monitorv4/secret_monitor.go:168-175 | the monitor is stopped and its key leaves the map |
| SecretWatch.SecretMonitor.GetSecret | monitorv4/secret_monitor.go:181-217 | the cached object, or the error of the branch taken |
| SecretWatch.SecretMonitor.ContextCancelled | monitorv4/monitor.go:63-69 | a watcher stops its monitor, also one that was dropped, and the invariant stays |
| ManagerSpec.InvStep | monitorv4/manager.go:42-95 | every registered route has a live handle of its own, and there are no other handles, after every operation, cancellation and informer step |
| ManagerSpec.CountsAreRoutes | monitorv4/manager.go:51-95 | also after cancellations, a monitor's count is the number of routes registered with its secret, and its handles are theirs |
| ManagerSpec.RegisterRunning | monitorv4/manager.go:51-70 | uncancelled, registering fails exactly for a registered route or without a handler |
| ManagerSpec.UnregisterRunning | monitorv4/manager.go:72-95 | uncancelled, unregistering fails exactly for a route that is not registered |
| ManagerSpec.RegisterEffect | monitorv4/manager.go:51-70 | cancelled or not: a registered route is refused without a change, and any other is one add of the shared handler for its secret, whose handle becomes the registration or whose error is returned |
| ManagerSpec.UnregisterEffect | monitorv4/manager.go:72-95 | cancelled or not: one removal of the registered handle; its error is returned and leaves the route registered |
| ManagerSpec.Conservation | monitorv4/manager.go:51-95 | in every uncancelled run a secret is monitored iff some route is registered with it, its count is the number of these routes, and without routes the map is empty and every monitor ever created was closed once |
| ManagerSpec.UnregisterAllEmpties | monitorv4/manager.go:72-95 | unregistering all routes in any order succeeds, empties the map and closes every channel once, whichever removals meet a lenient informer |
| ManagerSpec.StuckRoute | monitorv4/manager.go:51-95 | a route whose monitor was cancelled can never be unregistered or registered again |
| ManagerSpec.StuckRouteIsReached | monitorv4/manager.go:51-70 | a registration and a cancellation lead to a stuck route |
| ManagerSpec.CacheAgreement | monitorv4/manager.go:97-114 | the answer for a registered text is exactly the cached object of the namespace and the secret that this text is registered with, or not found |
| ManagerSpec.ReadOutcome | monitorv4/manager.go:97-114 | reading fails exactly if the text is not registered or the secret it is registered with is not cached, and says which |
| PairSpec.RegisterSimulates | monitorv4/manager.go:51-70 | without a slash in the namespace, registering returns the same in the registries keyed by text and by pair, keeps them alike, and registers the pair with a secret of its namespace |
| PairSpec.UnregisterSimulates | monitorv4/manager.go:72-95 | the same for unregistering |
| PairSpec.GetSecretSimulates | monitorv4/manager.go:97-114 | the same for reading |
| PairSpec.RunSimulates | monitorv4/manager.go:51-118 | in every run over namespaces without a slash, all operations return the same and the registries stay alike |
| PairSpec.ReadsOwnSecret | monitorv4/manager.go:97-118 | in every such run, cancelled or not, reading a route answers with an object iff this pair is registered and the object is cached in its namespace under its registered secret |
| PairSpec.SharedSecretSharedAnswer | monitorv4/manager.go:97-114 | in every such run, routes of one namespace registered with one secret name read one answer |
| PairSpec.ReadsOwnNamespaceIff | monitorv4/manager.go:116-118 | a pair is never read under another namespace's registration, in any run, iff neither its namespace nor its name has a slash |
| SecretManager.Manager.constructor | monitorv4/manager.go:30-40 | an empty registry without a handler |
| SecretManager.Manager.WithSecretHandler | monitorv4/manager.go:42-45 | replaces the shared handler and nothing else |
| SecretManager.Manager.RegisterRoute | monitorv4/manager.go:51-70 | new state and result are those of the specification, and the invariant of both layers is kept |
| SecretManager.Manager.UnregisterRoute | monitorv4/manager.go:72-95 | new state and result are those of the specification; a failed removal leaves the route registered |
| SecretManager.Manager.GetSecret | monitorv4/manager.go:97-114 | the result of the specification |
| RouteController.InvStep | routecontroller/handler.go:42-84 | every callback, worker step, notification and informer step keeps convergence and routing |
| RouteController.HandleMatchesReplay | routecontroller/handler.go:42-84 | no event that the worker takes is rejected, and the registry changes as its replay says |
| RouteController.Convergence | routecontroller/main.go:181-224 | in every run, replaying the queued events over the registry gives exactly the live routes with their current secrets; when nothing is queued they are the registry |
| RouteController.NothingRejected | routecontroller/handler.go:42-84 | no addition and no deletion taken from the queue fails |
| RouteController.NotificationOutcome | routecontroller/handler.go:55-67 | in every reachable state a notification changes nothing; it succeeds iff its route is registered and an object of the namespace and name it is registered with is cached, and otherwise says which is missing |
| RouteController.MonitorsMatchLiveRoutes | monitorv4/secret_monitor.go:100-178 | when things are quiet, the monitored secrets are those of the live routes, each counted once a route |
| RouteHistory.RegistryIsPairKeyed | monitorv4/manager.go:97-118 | in every run over namespaces without a slash, quiet or not, the registry is the one that the same operations make over pairs, and reading a route answers with an object iff this pair is registered and the object is cached in its namespace under its registered secret |
| RouteHistory.QuietPairs | routecontroller/main.go:181-224 | when things are quiet, the registered pairs are those of the live routes, each with its current secret |
| RouteHistory.LiveRouteReadsItsSecret | routecontroller/handler.go:55-67 | when things are quiet, a live route reads exactly its current secret from the cache, and its stored handler holds its object that was queued last |
| RouteHistory.HeldRoutes | routecontroller/handler.go:79-111 | in every run, replaying what is queued over the routes that the stored handlers hold gives the objects that were queued last |
| RouteHistory.StoredVersion | routecontroller/main.go:192-211 | when things are quiet, the stored handler of a live route holds the object queued last; where every change has a higher version, that is the current object iff no update changed it since, and an older one otherwise |
| RouteHistory.OlderVersionIsHeld | routecontroller/main.go:192-211 | an addition, its handling and an update that keeps the secret leave the handler with the older object |
| RouteController.NotificationRouting | routecontroller/handler.go:86-111 | in every run an event on a secret notifies each route registered with it exactly once, and no other route |
| RouteProgress.InOrder | routecontroller/main.go:41-64 | in every run, what waited followed by what entered the queue is what was handled followed by what still waits; callbacks enqueue exactly their events, in order |
| RouteProgress.NotificationsAddUp | routecontroller/handler.go:86-111 | in every run and for each route object: the notifications sent, one for each listener generated for it, are those that reached the queue, were dropped by a removed listener, or are underway |
| RouteProgress.EachEventNotifiesOnce | routecontroller/handler.go:86-111 | in every run and for each route: an event on the secret that it is registered with at that time, and a greeting of its handle, makes one notification, and these reached the queue, were dropped, or are underway |
| RouteProgress.EverythingIsHandled | routecontroller/main.go:41-64 | from every reachable state, at most four steps for each event and notification handle all of them in order and once, and end with the live routes registered with their secrets |
| RouteController.TwoWorkersMisroute | routecontroller/handler.go:79-84 | a handler set by a second worker in between is stored for the wrong route |
| WorkQueues.WorkQueue.Add | routecontroller/main.go:176-190 | appends, unless the queue is shutting down |
| WorkQueues.WorkQueue.Get | routecontroller/main.go:41-46 | hands out the oldest item, and says when there is nothing more to come |
| RouteWorker.Controller.RouteAdded | routecontroller/main.go:182-191 | indexes the route and queues an addition, which a queue that is shutting down drops |
| RouteWorker.Controller.RouteUpdated | routecontroller/main.go:192-211 | queues a deletion of the old and an addition of the new route iff the referenced secret changed, which a queue that is shutting down drops |
| RouteWorker.Controller.RouteDeleted | routecontroller/main.go:212-223 | queues a deletion, which a queue that is shutting down drops |
| RouteWorker.Controller.SecretChanged | routecontroller/handler.go:86-111 | queues one notification for the route that the closure captured, which a queue that is shutting down drops |
| RouteWorker.Controller.Distribute | routecontroller/handler.go:86-111 | visiting the listeners of a secret in any order queues exactly one notification for each route registered with it and none for any other, unless the queue is shutting down |
| RouteWorker.Controller.ShutDown | routecontroller/main.go:129-130 | the queue stops taking events and keeps those it has |
| RouteWorker.Controller.RegisterRoute | routecontroller/handler.go:79-84 | sets the handler of this route and registers it |
| RouteWorker.Controller.HandleRoute | routecontroller/handler.go:42-77 | registers, reads or unregisters by the kind of the event; a notification changes nothing, and fails exactly if its route is not registered or the secret it is registered with is not cached |
| RouteWorker.Controller.ProcessNextItem | routecontroller/main.go:41-64 | takes and handles the oldest event, which keeps the invariant |
| RouteWorker.Controller.RunWorker | routecontroller/main.go:149-152 | the loop handles everything that is queued; then the registry is the live routes with their current secrets, as of the last event that the queue took |
| Diff.DiffExact | util/util.go:38-96 | a change is recorded iff its path is reached by comparing part by part, and both values there differ as a whole; it holds these values, and a text that spells the path: names after dots, positions in decimal and keys in brackets |
| Diff.DecimalExactly | util/util.go:68-71 | a number has exactly one text of digits without leading zeros, and this is the one that is written |
| Diff.TextExactly | util/util.go:52-83 | a path is spelled, piece by piece, by exactly one text, and this is the one that is built |
| Diff.DiffDistinct | util/util.go:38-96 | no path is recorded twice |
| Diff.PathsArePrefixFree | util/util.go:38-96 | no recorded path lies inside another |
| Diff.OrderIndependence | util/util.go:82-85 | for any two key orders at every level, the two differences are permutations of each other |
| Diff.SameKeys | util/util.go:73-86 | equal sizes and no missing old key make equal key sets |
| Diff.Completeness | util/util.go:49-95 | nothing is recorded iff the values are equal up to nil against empty |
| Diff.PatchByParts | util/util.go:49-87 | changes below a value patch each part on its own, and keep the other parts |
| Diff.DiffThenPatch | util/util.go:38-96 | the recorded changes, applied in any order, turn the old value into the new one up to nil against empty |
| Diff.PanicsExactly | util/util.go:43-84 | the comparison panics iff a place is reached where the new value lacks a key of a map of equal size, or a field |
| Diff.TypedDiff | util/util.go:38-96 | all of this for two values of one type, where only missing keys can panic |
| Diff.TextsIdentifyPlaces | util/util.go:52-83 | with readable names and keys, two changes have the same field text iff they have the same path |
| Diff.ChangeList.Append | util/util.go:41-45 | the shared list grows by one record |
| Diff.CompareFields | util/util.go:38-96 | appends exactly the difference to the shared list, and panics exactly when a part is missing |
| Diff.GetChangedStatusFields | util/util.go:17-35 | the changes between the two fields `Status`, each place that differs once with its values and its spelled text; none without such a field, or a panic, also for an old object that is no struct |
| RouteNames.SplitParts | monitorv3/secret_monitor.go:202-208 | the parts of a text join to it, and hold no separator |
| RouteNames.SplitUndoesJoin | monitorv3/secret_monitor.go:202-208 | splitting undoes joining |
| RouteNames.ValidExactly | monitorv3/secret_monitor.go:196-215 | a name is valid iff it is two non-empty names without underscores around one underscore; they are unique, and the second is decoded |
| RouteNames.GeneratedValid | monitorv3/manager.go:127-132 | a generated key is valid iff both names are non-empty and without underscores |
| RouteNames.GeneratedInjective | monitorv3/manager.go:127-132 | equal valid keys come from equal namespaces, routes and secrets, and decode to the secret |
| RouteNames.GeneratedCollisions | monitorv3/manager.go:127-132 | exactly which names and namespaces share a generated key, checked or not |
| RouteNames.UncheckedKeysCollide | monitorv3/manager.go:127-132 | without the check two routes can share a key |
| RouteMonitorSpec.AddOutcome | monitorv3/secret_monitor.go:70-122 | in a reachable state adding fails exactly for an invalid name, without a change; otherwise one more handler is counted |
| RouteMonitorSpec.RemoveOutcome | monitorv3/secret_monitor.go:125-156 | removing fails exactly for a nil registration or a refused handle; a missing monitor is no error; the last counted handler stops and drops the monitor |
| RouteMonitorSpec.AddChangesOne | monitorv3/secret_monitor.go:70-122 | a successful add changes one monitor, or makes one, by exactly this handler under a new handle |
| RouteMonitorSpec.RemoveChangesOne | monitorv3/secret_monitor.go:125-156 | a removal takes exactly this handle from one monitor, which is stopped with its last one; a failed one changes nothing, and says why |
| RouteMonitorSpec.InformerChangesOne | monitorv3/monitor.go:40-48 | a step of an informer changes that informer only, by exactly what the step is |
| RouteMonitorSpec.InvStep | monitorv3/secret_monitor.go:70-156 | every operation with any handle and every informer step keeps the invariant of the map |
| RouteMonitorSpec.EveryRun | monitorv3/secret_monitor.go:70-194 | in every run no monitor in the map is stopped, no channel is closed twice, dropped ones are closed, and what is watched is what reading decodes from the key |
| RouteMonitorSpec.ReadExactly | monitorv3/secret_monitor.go:159-194 | reading returns exactly the cached object that the informer's selector names |
| RouteMonitorSpec.ReadOutcome | monitorv3/secret_monitor.go:159-194 | reading fails exactly without a handle, without its monitor or without the object in the cache, and says which |
| RouteManagerSpec.RegisterOutcome | monitorv3/manager.go:52-67 | registering succeeds iff both names are plain; then the new handle becomes the registration, also of a route that was registered, it holds the shared handler, and every other key keeps its handlers; otherwise nothing changes |
| RouteManagerSpec.UnregisterOutcome | monitorv3/manager.go:69-96 | unregistering succeeds iff the key is registered; then exactly the registered handle and the registration go |
| RouteManagerSpec.SetThenRegister | monitorv3/manager.go:47-67 | the handler that was set last is the one that a registration adds |
| RouteManagerSpec.Conservation | monitorv3/manager.go:52-96 | in every run a monitor counts one handler if its key is registered, and one more for each registration that was overwritten |
| RouteManagerSpec.EmptiesIff | monitorv3/manager.go:52-96 | once nothing is registered, the map is empty iff no route was ever registered while it was registered |
| RouteManagerSpec.LeakIsReached | monitorv3/manager.go:52-96 | two registrations and one unregistration of a route leave its monitor running, with the handler of the first |
| RouteManagerSpec.RouteReadsItsSecret | monitorv3/manager.go:100-125 | a registered route reads, once synced, exactly the cached object of its own secret |
| RouteManagerSpec.ReadOutcome | monitorv3/manager.go:100-125 | in every run reading answers an object iff the route is registered, synced and its own secret is cached, and otherwise says which is missing |
| RouteManagerSpec.CacheUpdateIsRead | monitorv3/manager.go:100-125 | after an update of its cache a route reads exactly from what was put there, and routes of other monitors read as before |
| RouteWatch.SingleItemMonitor.constructor | monitorv3/monitor.go:33-39 | a new monitor is not stopped |
| RouteWatch.SingleItemMonitor.StopInformer | monitorv3/monitor.go:50-61 | stops once, and refuses afterwards |
| RouteWatch.SingleItemMonitor.AddEventHandler | monitorv3/monitor.go:63-78 | adds and counts a handler, unless stopped or refused |
| RouteWatch.SingleItemMonitor.RemoveEventHandler | monitorv3/monitor.go:80-86 | removes and uncounts a handler, unless refused |
| RouteWatch.SingleItemMonitor.GetItem | monitorv3/monitor.go:91-94 | reads the cache at the text of namespace and given name |
| RouteWatch.SecretMonitor.AddSecretEventHandler | monitorv3/secret_monitor.go:70-122 | new state and result are those of the specification, and the invariant is kept |
| RouteWatch.SecretMonitor.RemoveSecretEventHandler | monitorv3/secret_monitor.go:125-156 | new state and result are those of the specification, and the invariant is kept |
| RouteWatch.SecretMonitor.GetSecret | monitorv3/secret_monitor.go:159-194 | the result of the specification |
| RouteWatch.Manager.RegisterRoute | monitorv3/manager.go:52-67 | new state and result are those of the specification, which overwrites a registration that is there |
| RouteWatch.Manager.UnregisterRoute | monitorv3/manager.go:69-96 | new state and result are those of the specification |
| RouteWatch.Manager.GetSecret | monitorv3/manager.go:100-125 | the result of the specification |
| Retry.AttemptsBound | main.go:98-121 | attempts made and attempts left add up to at most those left before, and exactly if every attempt fails |
| Retry.SuccessIsLast | main.go:99-105 | a key that succeeded is not attempted again |
| Retry.WeightStep | main.go:98-121 | a step lowers the weight of its own key and leaves all others alone |
| Retry.RunLength | main.go:98-121 | the length of every run is bounded by the total weight at its start |
| Retry.RetriesDrain | main.go:107-121 | from any list of keys every run is finite, never stuck, and ends with nothing queued; each key is requeued at most five times in a row and attempted at most six times, exactly six if it always fails |
| Retry.FirstInFirstOut | main.go:53-62 | in every run, what was queued followed by what enters is what was taken followed by what is still queued |
| Retry.RateLimitingQueue.Get | main.go:54-58 | the oldest key is taken and is no longer dirty |
| Retry.RateLimitingQueue.Done | main.go:59-62 | a key that became dirty meanwhile is queued again |
| Retry.RateLimitingQueue.AddRateLimited | main.go:112-115 | counts a requeue, and lets the key wait |
| Retry.RateLimitingQueue.Forget | main.go:99-105 | forgets the requeues of a key |
| MainLoop.NothingIsTried | main.go:53-74 | in every run, whatever is queued and arrives, no text is ever attempted, and no key is requeued or waits |
| MainLoop.OnePass | main.go:53-74 | without arrivals, keys are taken in order and once each; the loop stops exactly with all of them taken as texts, or at the first key that is none, where it crashes |
| MainLoop.ArrivalsInOrder | main.go:53-74 | in every run with arrivals at any time, keys are taken in the order in which they entered, and exactly the keys that arrived since they were taken last are queued, or in work and queued again after it |
| MainLoop.Controller.ProcessNextItem | main.go:53-74 | takes and finishes a text without an attempt, and panics for any other key |
| MainLoop.Controller.RunWorker | main.go:53-74 | empties a queue of texts without a retry, and panics exactly if there is another key, with what follows the first such key still queued |
| MainLoop.Controller.HandleErr | main.go:98-121 | forgets on success and after five requeues, and requeues otherwise |
| MainLoop.Driver.Attempt | main.go:98-121 | one attempt under the policy, with the failures so far deciding about a requeue |
| MainLoop.Driver.Drain | main.go:98-121 | attempts under the policy end with nothing queued, waiting or remembered, and are one of the runs bounded above |

## Left out

- `numHandlers` is a 32-bit counter; its wrap-around is not modelled.
- Blocking: the waits for a cache sync (`monitorv4/secret_monitor.go:120` and `198`) are guards. If the context is cancelled before the first sync the code may wait for ever; nothing is claimed about that.
- The branches after a failed wait (`monitorv4/secret_monitor.go:121` and `199`) are not modelled, because the waits run on a context that is never done.
- The Kubernetes client, list and watch, field selectors beyond their meaning, and the inside of informers and their listeners.
- Several workers, except for RouteController.TwoWorkersMisroute; the program runs one.
- RouteWorker.Controller.RunWorker: returns where the loop would wait for ever; its events are handled without callbacks in between, which RouteController covers.
- SecretWatch.SecretMonitor.AddSecretEventHandler: the class runs an operation as a whole; the steps between its sections are the subject of SecretProtocol.
- Deletion events with a tombstone instead of a route or secret, for which the callbacks' type assertions panic.
- The branch for an unexpected type in the cache (`monitorv4/secret_monitor.go:211-214`, `monitorv3/secret_monitor.go:188-191`); the caches hold secrets only.
- An invalid event type in `HandleRoute`, which is logged and ignored.
- A route without TLS configuration or external certificate in `monitorv3/manager.go`, which is a nil dereference.
- RouteManagerSpec.GetSecret: the wait of up to one second for the handler's sync is the parameter `synced`.
- The environment's own steps for the classes of `RouteWatch.dfy`; the specification has them.
- Diff: deep equality of values that are not equal to themselves (NaN, functions), unexported fields, map keys that are not text, and pointers followed inside leaves; a leaf is compared as a whole.
- Diff.TextsIdentifyPlaces: goes one way, since readable names are sufficient but not necessary; the code promises nothing about the texts.
- Diff.GetChangedStatusFields: takes the two objects that the arguments point to; the old one has at most one field `Status`, as every struct type.
- Retry: keys that are added from outside while the policy drains the queue, real delays, and several workers.
- MainLoop.Driver.Drain: stands for a loop that the program does not have; the one it has is MainLoop.Controller.RunWorker, which returns where it would wait.
- `monitor/` and `monitor_v2/`, earlier versions whose registration keys or error branches are unfinished.
- `monitorv3/extra.go`, `testinformer/`, `generic_controller.go`, flags, logging, YAML and the rest of `main.go`.
