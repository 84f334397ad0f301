# Kubikles: models and proofs of its state machines and text cores

Kubikles is a desktop client for Kubernetes written in Go. Most of it forwards
calls to libraries; the logic that can go wrong sits in a few state machines that
share locks and timers with each other, and in a few printer/parser pairs. This
project models those parts in Dafny 4.11 and proves what they promise.
`dafny verify dfyconfig.toml` checks everything.

How the models are built:

- A region protected by a mutex is one atomic step of a `Step` datatype, and `Next`
  is its effect on a value `State`. A run is any sequence of enabled steps, so a
  property of `Exec(s, steps)` holds for every interleaving of goroutines.
- A `time.AfterFunc` timer is `armed` until its delay passes and `due` until its
  callback gets the lock. `Stop` removes armed timers only, so late callbacks are
  part of every run (`GoTimers`).
- Code that changes fields is a class whose methods are proved equal to the steps;
  loops over maps pick keys in an arbitrary order. What the code promises is then
  proved about the steps.
- The network, the clock, randomness, Kubernetes and the operating system are
  parameters: what they answer is arbitrary.

| file | models |
|---|---|
| `Common.dfy`, `GoTimers.dfy` | shared values; Go's timers |
| `WatcherKeys.dfy` | the keys of events and watchers |
| `EventCoalescer.dfy` | `eventcoalescer.go` |
| `WatcherManager.dfy` | `app_watchermgr.go` |
| `WatchLoop.dfy` | the watch loops of `app_watchers.go` |
| `RequestManagers.dfy` | `listrequests.go`, `metricsrequests.go` |
| `LogCoalescer.dfy` | `logcoalescer.go` |
| `PortForward.dfy`, `Reconnect.dfy` | `portforward.go` |
| `IngressForward.dfy` | `ingressforward.go` on top of the port forwards and the hosts file |
| `Scanner.dfy`, `Hosts.dfy`, `HelmManifest.dfy` | `pkg/hosts/hosts.go`, `pkg/helm/manifest.go` |
| `GenDispatcher.dfy` | the type printer and reader of `cmd/gen-dispatcher/main.go` |
| `McpArgs.dfy` | `pkg/ai/codex_cli.go` and `main.go` |
| `ToolParams.dfy`, `ToolLoop.dfy` | `pkg/ai/anthropic_tools.go`, `pkg/ai/anthropic_api.go` |
| `Sessions.dfy` | the one-shot requests of `pkg/ai/manager.go` |

What the proofs found, besides what they confirm:

- `FlushNow` on an empty buffer can stop the only timer while `pending` stays set.
  After that no event is delivered by a timer until somebody clears or drains again
  (`StrandingRun`, `StarvedBuffersForever`); the condition is exact
  (`NextKeepsWakeUp`).
- A cleanup callback that is late can remove a watcher before the delay of the
  latest unsubscribe has passed (`LateCallbackCutsTheDelay`). The delay is kept in
  every later run if and only if no cleanup of the key was outstanding before that
  unsubscribe (`DelayIsKeptIff`).
- The log coalescer emits outside its lock, so `Done` can overtake lines that a
  timer flush has already taken (`OverlapEmitsAfterDone`). It comes last in every
  later run if and only if no goroutine carries lines of the stream when `EmitDone`
  runs (`DoneIsLastIff`; for errors, `ErrorIsLastIff`), and lines stay in order if and
  only if no flush takes lines while another one carries some (`OrderIsKeptIff`,
  `OrderedThroughoutIff`).
- `DeleteConfig` lets go of the lock while it stops a forward; two configurations can
  then end up on one port (`DisturbedDeleteSharesAPort`), but not if nobody else touches
  a configuration while it is being deleted (`LeftAloneIsUndisturbed`).
- `AddConfig` with an existing id and a new port leaks the old reservation until the
  next start of the program (`AddKeepsExact`, `LoadRestoresSaved`).
- Cleaning the hosts file is not idempotent for lines that end in several carriage
  returns (`RemoveIsIdempotent`, `DoubleCRIsNotStable`).
- A hosts file with a line over the scanner's limit loses everything from that line
  on when it is cleaned or updated (`LongLineLosesTheRest`); what that costs, and when
  it costs nothing, is exact (`EveryLineIsReadIff`, `EveryEntryIsFoundIff`,
  `EveryOtherLineStaysIff`).
- Requests of one session can overlap, although each cancels the context of the one
  before: an older request that finishes all the same is recorded behind the newer one
  (`OverlapCanReverse`). A new request that will finish leaves the history in the order
  of the questions in every later run if and only if no request that will finish is
  still streaming (`BeginStaysInOrderIff`); overlapping one that then fails, because its
  context was cancelled, does no harm (`InOrderThroughoutIff`).
- A variadic parameter hides its package from the dispatcher generator
  (`ParameterPackagesAreFound`).
- A comment in `eventcoalescer.go` says that ':' is not valid in Kubernetes names; it
  is valid in names of RBAC objects. The keys are still injective, because only the
  last part may contain it (`EventKeyInjective`). A comment in `app_watchers.go`
  announces jitter; the code has none, and the model follows the code. After an ERROR
  event the loop reopens at once, without any delay.

## Model

| member | source | states |
|---|---|---|
| WatcherKeys.LoopKeyIsManagerKey | app_watchers.go:98 | the key a watch loop derives for itself is the key its manager stored it under, for built-in and custom resources |
| WatcherKeys.EventKeyInjective | eventcoalescer.go:105-116 | two events share a key only if type, namespace and name agree, though names may contain ':' |
| WatcherKeys.ManagerKeyInjective | app_watchermgr.go:54-98 | two subscriptions share a watcher only if kind (or GVR) and namespace agree |
| WatcherKeys.KeysCollideOutsideTheConditions | eventcoalescer.go:115 | with ':' in a namespace, or '/' in a type, distinct things do share keys |
| EventCoalescer.NextKeepsBuffered | eventcoalescer.go:60-173 | only ADDED/MODIFIED events are buffered, each under its own key, in every step including stale timers |
| EventCoalescer.CoalescingRefinesDirectEmission | eventcoalescer.go:46-173 | for every interleaving and map order, the frontend's state overlaid with the buffer is the state after applying every input directly; with an empty buffer they are equal |
| EventCoalescer.ClearForgetsBuffer | eventcoalescer.go:207-219 | Clear leaves exactly what the frontend already had |
| EventCoalescer.DeletedStaysGone | eventcoalescer.go:66-90 | after DELETED no later flush brings the resource back, until a new event for it arrives |
| EventCoalescer.GoneStaysGone | eventcoalescer.go:125-173 | a key that is neither shown nor buffered stays so in every run without events for it |
| EventCoalescer.NextKeepsWakeUp | eventcoalescer.go:77-219 | one step keeps "a non-empty buffer is pending and has a live timer or a drain under way" if and only if it is not the end of a drain that found an empty buffer, pending set and no timer |
| EventCoalescer.NoStrandedEvent | eventcoalescer.go:77-219 | the wake-up invariant along every run that avoids that step |
| EventCoalescer.EveryRunFromTheStart | eventcoalescer.go:46-219 | both results for every run of a new coalescer: what is shown is what direct emission would show, and no run without the stranding step strands an event |
| EventCoalescer.TimersAloneNeverStrand | eventcoalescer.go:77-173 | without FlushNow no run strands an event: non-empty means pending and a live timer |
| EventCoalescer.StarvedBuffersForever | eventcoalescer.go:92-101 | once stranded, later events pile up and nothing is emitted until Clear, a drain or a DELETED |
| EventCoalescer.StrandingRun | eventcoalescer.go:184-202 | ADDED x, DELETED x, FlushNow, ADDED y reaches that state from the start |
| EventCoalescer.FewestBatchesIsCeiling | eventcoalescer.go:134-147 | the number of flushes of a drain is the quotient rounded up |
| EventCoalescer.Coalescer.EmitEvent | eventcoalescer.go:60-101 | the method is the Emit step: with an interval below a millisecond the event is shown as it is, DELETED is shown at once and leaves no buffered event of its key, and an ADDED or MODIFIED shows nothing itself but is buffered with a timer armed |
| EventCoalescer.Coalescer.CollectBatch | eventcoalescer.go:134-152 | the loop takes distinct keys up to the cap, in any map order |
| EventCoalescer.Coalescer.Flush | eventcoalescer.go:125-173 | the method is one flush step for some possible order, re-arming exactly when something is left; one event is shown alone, several in one batch |
| EventCoalescer.Coalescer.OnTimer | eventcoalescer.go:152-158 | a timer callback, late or not, is a flush that consumes that timer |
| EventCoalescer.Coalescer.ClearAll | eventcoalescer.go:207-219 | the method is the Clear step |
| EventCoalescer.Coalescer.UpdateFrameInterval | eventcoalescer.go:231-241 | the interval is clamped to 1..100 and nothing else changes |
| EventCoalescer.Coalescer.UpdateMaxBatchSize | eventcoalescer.go:245-255 | the batch size is clamped to 50..5000 and nothing else changes |
| EventCoalescer.Coalescer.FlushNow | eventcoalescer.go:184-202 | is a run of the machine, sends every buffered event exactly once in the least number of flushes, and keeps the wake-up invariant exactly outside the stranding case (the batch size starts at 500 and stays in 50..5000) |
| WatcherManager.NextKeepsOwned | app_watchermgr.go:53-257 | watchers and uncancelled loop contexts correspond one to one in every step, late timers included |
| WatcherManager.NextKeepsCounted | app_watchermgr.go:53-164 | a watcher's RefCount is its subscribes minus unsubscribes since it was created |
| WatcherManager.NextKeepsAccounted | app_watchermgr.go:53-222 | created = live + cleaned + stopped |
| WatcherManager.NextKeepsWillBeCleaned | app_watchermgr.go:144-197 | an unused watcher always has an outstanding cleanup, and one more for each unsubscribe too many |
| WatcherManager.EveryRunKeepsInvariant | app_watchermgr.go:53-257 | all of the above along every run |
| WatcherManager.InitInvariant | app_watchermgr.go:42-48 | a new manager satisfies the invariant |
| WatcherManager.EveryRunFromTheStart | app_watchermgr.go:42-257 | every run of a new manager keeps the invariant |
| WatcherManager.SubscribersKeepTheirLoop | app_watchermgr.go:53-257 | a client that still holds a subscription keeps an uncancelled loop for its key, whatever others and late timers do |
| WatcherManager.UnusedWatcherIsCleaned | app_watchermgr.go:144-197 | an unused watcher has a cleanup outstanding, and any cleanup of its key that runs removes it and cancels its loop |
| WatcherManager.DelayIsKeptIff | app_watchermgr.go:144-197 | after the unsubscribe that leaves a watcher unused, cleanups remove it only through the timer armed by that unsubscribe, in every later run without another unsubscribe of the key, if and only if no cleanup of the key was outstanding before |
| WatcherManager.LateCallbackCutsTheDelay | app_watchermgr.go:144-197 | it does happen: a late callback of an earlier unsubscribe removes a watcher whose newer cleanup is still armed |
| WatcherManager.RestartRenewsUsedWatchers | app_watchermgr.go:227-257 | a restart gives every used watcher a fresh context and no version, cancels its old loop, and changes nothing else |
| WatcherManager.SubscribeWatches | app_watchermgr.go:53-141 | a subscribe counts one subscriber more; a key nobody watched gets a new watcher with a context of its own and one loop for that key; no other watcher changes |
| WatcherManager.UnsubscribeArmsTheCleanup | app_watchermgr.go:144-164 | the unsubscribe that leaves nobody arms a new cleanup timer for the key and the watcher remembers it |
| WatcherManager.ResubscribeStopsTheCleanup | app_watchermgr.go:53-80 | a resubscribe stops the cleanup the watcher remembered and forgets it |
| WatcherManager.StopAllStopsEverything | app_watchermgr.go:200-222 | after a stop of everything no watcher and no loop of one is left, and no cleanup timer that a watcher remembered is armed |
| WatcherManager.CountersCountThat | app_watchermgr.go:53-222 | each step counts exactly the watchers it creates and cleans up |
| WatcherManager.Manager.Subscribe | app_watchermgr.go:53-141 | the method is the subscribe step for the derived key, for both kinds of resource |
| WatcherManager.Manager.Unsubscribe | app_watchermgr.go:144-164 | the method is the unsubscribe step |
| WatcherManager.Manager.Cleanup | app_watchermgr.go:167-197 | the method is the cleanup step |
| WatcherManager.Manager.StopAll | app_watchermgr.go:200-222 | the loop over the watchers, in any order, is the stop step |
| WatcherManager.Manager.RestartAll | app_watchermgr.go:227-257 | the loop over the watchers, in any order, gives exactly the used ones a fresh context and forgets their versions |
| WatchLoop.EveryRunIsGood | app_watchers.go:97-329 | along every run each opening sends the last version seen since the last reset, every refusal or close is followed by its delay, and only a received event is emitted |
| WatchLoop.EveryRunEmitsOnce | app_watchers.go:260-327 | a run emits every convertible ADDED/MODIFIED/DELETED that the script delivers to it before the stream ends or the loop is cancelled, exactly once, in order, and nothing else |
| WatchLoop.EveryRunFromTheStart | app_watchers.go:97-329 | both results for a loop that has just been started from the version in its entry: what it emits is read off the deliveries of the attempts |
| WatchLoop.DeliveryIsHandled | app_watchers.go:258-327 | what handling one delivery shows: the event was received, then it is emitted, or the loop stops, or nothing; whether the stream goes on, and the failures and the version it leaves |
| WatchLoop.AttemptIsNoted | app_watchers.go:157-329 | what one attempt shows, read off its script: all deliveries up to the one that ends the stream; a close is early exactly if it was quick and nothing was delivered |
| WatchLoop.SeenIsTheLastVersion | app_watchers.go:126-147 | the version sent is that of the last versioned event (BOOKMARK included), or empty if a reset came after it |
| WatchLoop.SeenIsInitial | app_watchers.go:157-160 | before any version or reset the version is the one in the watcher entry |
| WatchLoop.DelayDoubles | app_watchers.go:183-187 | the delay is 2, 4, ... 64, then 120 seconds |
| WatchLoop.TryKeepsGood | app_watchers.go:157-329 | one attempt, from the opening to the end of its stream, keeps the loop in order |
| WatchLoop.Watching.Receive | app_watchers.go:258-327 | handling one event, with its early exits, is the Deliver step, and adds to the trace exactly what the delivery says |
| WatchLoop.Watching.ChannelClosed | app_watchers.go:225-256 | a closed channel counts as a failure only if it closed at once, and sets the delay |
| WatchLoop.Watching.ProcessStream | app_watchers.go:213-329 | the inner loop over a stream; the trace gains exactly what the deliveries and the end of the stream say |
| WatchLoop.Watching.OpenRefused | app_watchers.go:164-200 | a refused opening counts, forgets a version that is too old, and waits |
| WatchLoop.Watching.WatchResourceLoop | app_watchers.go:97-329 | the two nested loops are Run over any script of attempts and emit exactly what the script has to be passed on |
| RequestManagers.EveryRunIsAccounted | listrequests.go:79-140 | total = completed + canceled + pending, pending = tracked requests, sequence numbers increase and each is in exactly one bucket, in every run |
| RequestManagers.InitAccounted | listrequests.go:57-63 | a new manager satisfies this |
| RequestManagers.LateCompletionIsIgnored | listrequests.go:110-121 | once an id has been started again, completing any sequence number it had before changes nothing, whatever happened before that start and whatever happens after it |
| RequestManagers.FirstOfTwoStartsIsIgnored | listrequests.go:79-121 | completing the first of two starts of an id changes nothing, whatever happens between the starts and after them |
| RequestManagers.EveryRunFromTheStart | listrequests.go:57-140 | every run of a new manager satisfies the accounting |
| RequestManagers.SwitchIsInvisible | listrequests.go:67-106 | runs that differ only in the cancellation switch agree on everything but the cancelled contexts |
| RequestManagers.CancellationOnCancelsExactly | listrequests.go:79-140 | with cancellation on, exactly the requests counted as canceled have their contexts cancelled |
| RequestManagers.CancelEndsTheRequest | listrequests.go:125-140 | cancelling a tracked request: it is no longer tracked, it counts as canceled and not as pending, with cancellation on its context is cancelled, the others stay, and completing it changes nothing in any later run |
| RequestManagers.CompleteEndsTheRequest | listrequests.go:110-121 | completing a tracked request with its sequence number: no longer tracked, one more completed, one less pending, the others stay |
| RequestManagers.StartReplacesTheRequest | listrequests.go:79-106 | a start is tracked under the next sequence number and counts as pending; the request it replaces counts as canceled and, with cancellation on, its context is cancelled |
| RequestManagers.UnknownChangesNothing | listrequests.go:110-140 | cancelling an unknown id, or completing an id with another sequence number than its own, changes nothing |
| RequestManagers.ListRequestManager.StartRequest | listrequests.go:79-106 | the method is the start step and returns the new sequence number |
| RequestManagers.ListRequestManager.CompleteRequest | listrequests.go:110-121 | the method is the completion step |
| RequestManagers.ListRequestManager.CancelRequest | listrequests.go:125-140 | the method is the cancel step (CancelEndsTheRequest) and says whether the request existed |
| RequestManagers.MetricsRequestManager.StartRequest | metricsrequests.go:51-74 | the same machine with cancellation always on |
| RequestManagers.MetricsRequestManager.CompleteRequest | metricsrequests.go:78-89 | the completion step |
| RequestManagers.MetricsRequestManager.CancelRequest | metricsrequests.go:92-104 | the same cancel step with cancellation always on |
| LogCoalescer.EveryRunConservesLines | logcoalescer.go:44-175 | with taking and emitting as separate steps, every text was emitted, is carried or is buffered as often as it was queued |
| LogCoalescer.OrderIsKeptIff | logcoalescer.go:72-175 | a step keeps emitted, carried and buffered lines in the order in which they were queued, with one carrier at most, if and only if it does not take lines while some are still carried |
| LogCoalescer.OrderedThroughoutIff | logcoalescer.go:72-175 | a run is in order throughout if and only if none of its steps does that |
| LogCoalescer.DoneIsLastIff | logcoalescer.go:72-106 | in every later run Done comes after every line queued before it, if and only if no goroutine carries lines of the stream when EmitDone runs |
| LogCoalescer.ErrorIsLastIff | logcoalescer.go:109-154 | in every later run the error of EmitError comes after every line queued before its flush takes the lines, if and only if no goroutine carries lines of the stream at that moment |
| LogCoalescer.WholeCallsKeepOrder | logcoalescer.go:44-175 | when each call and callback takes and emits in one piece, emitted and buffered lines together are exactly the queued ones, in order |
| LogCoalescer.EveryRunFromTheStart | logcoalescer.go:44-175 | conservation, the wake-up, and order without overlaps, for every run of a new coalescer |
| LogCoalescer.SerialFlushesKeepOrder | logcoalescer.go:120-175 | in a run in which no flush takes lines of a stream while another carries some, the emitted lines are a prefix of the queued ones |
| LogCoalescer.DoneFollowsEarlierLines | logcoalescer.go:72-106 | in such a run every line queued before EmitDone has been emitted, in order, by the time Done is next |
| LogCoalescer.OverlapEmitsAfterDone | logcoalescer.go:72-141 | it does happen: a run from the start in which a line follows Done |
| LogCoalescer.EveryRunWakesUp | logcoalescer.go:44-154 | a non-empty buffer always has a live timer or a flush about to take it |
| LogCoalescer.RunOutIsRun | logcoalescer.go:157-175 | emitting all a goroutine carries is a run of single emissions |
| LogCoalescer.EveryNoticeIsSaid | logcoalescer.go:72-154 | in every run each Done and each error has been emitted or is carried by a goroutine, as often as EmitDone and EmitError asked for it |
| LogCoalescer.TheStreamIsForgotten | logcoalescer.go:72-188 | EmitDone and Cleanup forget the buffer of the stream and stop the timer it remembers, and touch no other stream |
| LogCoalescer.LineArmsOnce | logcoalescer.go:44-69 | the first line of a quiet stream arms a timer that the stream remembers; further ones join the buffer |
| LogCoalescer.FlushStopsTheTimer | logcoalescer.go:109-154 | a flush stops the timer of the stream before it takes the lines |
| LogCoalescer.Coalescer.EmitLine | logcoalescer.go:44-69 | the method is the EmitLine step |
| LogCoalescer.Coalescer.OnTimer | logcoalescer.go:120-141 | a timer flush is the call in one piece: a take step followed by its emissions |
| LogCoalescer.Coalescer.FlushStream | logcoalescer.go:109-154 | FlushStream, with or without an error message after it, is its steps in order |
| LogCoalescer.Coalescer.EmitDone | logcoalescer.go:72-106 | the same for EmitDone |
| LogCoalescer.Coalescer.Cleanup | logcoalescer.go:178-188 | the method is the Cleanup step |
| PortForward.NoTwoShareAPort | portforward.go:66-71 | if every port maps back to its configuration, no two configurations share one |
| PortForward.ForgetKeepsRegistered | portforward.go:262-265 | the locked end of DeleteConfig keeps the registry if and only if no other configuration uses the port it read before |
| PortForward.ForgetKeepsExact | portforward.go:262-265 | it keeps the index exact if and only if, besides, the configuration did not move meanwhile |
| PortForward.AddKeepsExact | portforward.go:178-207 | AddConfig keeps the index exact if and only if it does not move an existing id to another port |
| PortForward.UpdateKeepsRegistered | portforward.go:210-243 | UpdateConfig keeps the registry and the exact index |
| PortForward.DeleteKeepsRegistered | portforward.go:246-278 | so does a whole DeleteConfig |
| PortForward.NextKeepsRegistered | portforward.go:178-361 | every step keeps the registry, a delayed deletion exactly under its condition |
| PortForward.EveryRunIsRegistered | portforward.go:178-361 | so does every run whose deletions are undisturbed |
| PortForward.RegisteredThroughoutIff | portforward.go:178-361 | a run keeps the registry throughout if and only if its deletions are undisturbed |
| PortForward.LeftAloneIsUndisturbed | portforward.go:246-278 | if from the moment a deletion lets go of the lock nobody else moves, replaces or deletes that configuration, no deletion of the run is disturbed and the registry is kept |
| PortForward.NextKeepsExact | portforward.go:178-361 | one step keeps the index the exact inverse if and only if it does not move an existing id by AddConfig and does not end a deletion that was disturbed |
| PortForward.ExactThroughoutIff | portforward.go:178-361 | the index is exact throughout a run if and only if every step of it is like that |
| PortForward.DisturbedDeleteSharesAPort | portforward.go:254-265 | the condition is needed: a run that ends with two configurations on one port |
| PortForward.AddThenDelete | portforward.go:178-324 | adding a new configuration, starting it or not, and deleting it restores the state |
| PortForward.StatusIsShown | portforward.go:691-717 | a running forward shows the status and the error given last; nothing else changes |
| PortForward.CleanedKeepsTheRest | portforward.go:379-395 | the orphan cleanup removes exactly the ingress configurations of the context, with their forwards, and keeps the registry |
| PortForward.FoundPortIsAccepted | portforward.go:430-499 | a port from either search is accepted by AddConfig for any configuration |
| PortForward.LoadRestoresSaved | portforward.go:100-144 | loading what was saved gives the same configurations in any order of writing, and an exact index |
| PortForward.PortForwardManager.LoadConfigs | portforward.go:100-122 | the loop over the file |
| PortForward.PortForwardManager.SaveConfigs | portforward.go:125-144 | the file lists every configuration exactly once |
| PortForward.PortForwardManager.AddConfig | portforward.go:178-207 | id and time are filled in and every other field is kept; refused, without change, exactly if another configuration holds the port |
| PortForward.PortForwardManager.UpdateConfig | portforward.go:210-243 | every field but the creation time is that of the argument; not found or port in use exactly when that is so, and then nothing changes |
| PortForward.PortForwardManager.DeleteConfig | portforward.go:246-278 | a whole deletion, stopping the forward first |
| PortForward.PortForwardManager.Start | portforward.go:281-324 | becomes active, as "starting" with its configuration, exactly if it exists, is not active and the port can be bound |
| PortForward.PortForwardManager.Stop | portforward.go:327-361 | is no longer active; says if it never was |
| PortForward.PortForwardManager.CleanupIngressConfigs | portforward.go:379-395 | collecting and deleting in any order is the cleanup |
| PortForward.PortForwardManager.GetAvailablePort | portforward.go:430-453 | the preferred port if usable, else the lowest in 10000..65534 that is not well known, not held and can be bound, else 0 exactly if there is none |
| PortForward.PortForwardManager.GetRandomAvailablePort | portforward.go:456-492 | the first usable of a hundred draws, else as above |
| Reconnect.RunWithReconnect | portforward.go:513-576 | ends for every network that connects finitely often, with the outcome EndsAt describes and the waits in 1..30 seconds given in closed form |
| Reconnect.EndingIsDetermined | portforward.go:513-576 | that outcome and its number of waits are unique |
| Reconnect.EndingFitsTheAttempts | portforward.go:519-576 | stopped only if the user stops it before, during or after an attempt; pod gone exactly if it is a pod and was not alive after the last wait; no such thing in the rounds before |
| Reconnect.WaitsDouble | portforward.go:516-563 | the waits begin with one second, each is twice the one before up to thirty, and they start over after a connection that was ready |
| Reconnect.GivesUpAfterTenFailures | portforward.go:513-576 | without a stop or a dead pod it gives up, and ends in no other way, before the first attempt that follows ten attempts in a row that never became ready |
| Reconnect.TenthFailure | portforward.go:533-537 | those ten follow the start or a connected attempt |
| Reconnect.ColdStartWaits181 | portforward.go:516-563 | a forward that never came up is given up after 181 seconds of waiting |
| Reconnect.DropWaits211 | portforward.go:533-563 | one that dropped, 211 seconds of waiting after the drop |
| IngressForward.AddedLeadsBack | ingressforward.go:306-353 | adding a configuration under an unused id can be undone by deleting it |
| IngressForward.OneMoreUndone | ingressforward.go:424-431 | stopping and deleting one id undoes just that id, even if it is already gone |
| IngressForward.StopCleansHosts | ingressforward.go:369-440 | what a start writes for accepted host names is read back as written and removed by a stop |
| IngressForward.HostsFile.AddEntries | pkg/hosts/hosts_linux.go:53-106 | the file is replaced by the update exactly if all names are valid and it may be written; an empty list changes nothing |
| IngressForward.HostsFile.RemoveEntries | pkg/hosts/hosts_linux.go:163-208 | the file is cleaned, or left alone if that is denied |
| IngressForward.IngressForwardManager.AddForwards | ingressforward.go:284-356 | each stored configuration field by field: HTTPS from 8443 or, when that is taken, the lowest usable port to the port of the controller for it, HTTP from 8080 to its port for that; HTTP is optional and HTTPS fails exactly if its local port is held |
| IngressForward.CrashIsCleanedUp | portforward.go:379-395 | after a start whose stop never came, the orphan cleanup of the next start leads back to the same state |
| IngressForward.IngressForwardManager.StartForwards | ingressforward.go:363-370 | all forwards start, or all are undone and the state is an error |
| IngressForward.IngressForwardManager.UpdateHosts | ingressforward.go:371-400 | a failure to write leaves the forwards running; a success shows the standard ports |
| IngressForward.IngressForwardManager.Launch | ingressforward.go:273-409 | everything after the host names are known: the exact condition under which it succeeds; undone on failure; on success running, with the configurations of AddForwards, the ports shown and the hosts file |
| IngressForward.IngressForwardManager.Start | ingressforward.go:242-410 | whatever fails after the orphan cleanup, the forwards are exactly those the cleanup left; it succeeds exactly if there are host names and Launch can; then deleting the added ones leads back there, and they go from the chosen local ports to the ports of the controller |
| IngressForward.IngressForwardManager.Stop | ingressforward.go:413-453 | the remembered forwards are undone and the hosts file is cleaned if it was written |
| IngressForward.IngressForwardManager.StartThenStop | ingressforward.go:242-453 | a start and a stop together conserve the forwards, and leave the hosts file as it was or cleaned |
| IngressForward.IngressForwardManager.RefreshHostnames | ingressforward.go:456-489 | succeeds if and only if it is active, the host names could be collected and, unless there are none, all are valid and the file may be written; then the block is rewritten, else nothing changes |
| Scanner.ScanAll | pkg/helm/manifest.go:15-18 | the tokens are the same for every way of delivering the input, and the loop always ends |
| Scanner.TokensAreLines | pkg/hosts/hosts.go:83-84 | the tokens of the default split are the lines, each without one carriage return, up to the first too long |
| Scanner.FindInPrefix | pkg/helm/manifest.go:63-65 | a separator found in a window is the first one of the whole input |
| HelmManifest.SplitIsStable | pkg/helm/manifest.go:57-75 | the split makes progress and more data does not change a document |
| HelmManifest.SplitManifest | pkg/helm/manifest.go:15-18 | the documents of a manifest do not depend on how it is delivered |
| HelmManifest.JoiningRestores | pkg/helm/manifest.go:57-75 | joining the documents restores the manifest, up to one separator at the end; what is left unread begins with a document that is too long |
| HelmManifest.DocumentsHaveNoSeparator | pkg/helm/manifest.go:63-65 | no document contains a separator |
| Hosts.ParseManagedEntries | pkg/hosts/hosts.go:79-108 | the loop reads exactly the entries of the managed blocks |
| Hosts.RemoveExistingManagedBlock | pkg/hosts/hosts.go:132-162 | the loop keeps exactly the lines outside managed blocks, tidied at the end |
| Hosts.BuildEntriesContent | pkg/hosts/hosts.go:111-129 | the block is an empty line, the markers and a line for each entry |
| Hosts.RemovedHasNoEntries | pkg/hosts/hosts.go:79-162 | a cleaned file has no managed entries, whatever it contained |
| Hosts.UpdateIsReadBack | pkg/hosts/hosts.go:79-129 | an update reads back as written if and only if every entry fits on a line of its own |
| Hosts.ParsedEntriesAreValid | pkg/hosts/hosts.go:96-104 | everything ever read is such an entry |
| Hosts.RemoveUndoesUpdate | pkg/hosts/hosts.go:111-162 | removing an update leaves what removing from the cleaned file leaves |
| Hosts.RemoveIsIdempotent | pkg/hosts/hosts.go:132-162 | cleaning twice is cleaning once if and only if no kept line still ends in a carriage return |
| Hosts.DoubleCRIsNotStable | pkg/hosts/hosts.go:132-162 | a file for which it is not |
| Hosts.UpdateReplaces | pkg/hosts/hosts_linux.go:69-70 | an update replaces the one before it, if and only if the same holds |
| Hosts.OtherLinesSurvive | pkg/hosts/hosts.go:132-162 | the lines before and after a managed block survive its removal, in order |
| Hosts.LongLineLosesTheRest | pkg/hosts/hosts.go:136-153 | a line over the limit after unmarked lines: it and everything after it is lost |
| Hosts.EveryLineIsReadIff | pkg/hosts/hosts.go:83-84 | every line of a file is read if and only if none reaches the limit |
| Hosts.EveryEntryIsFoundIff | pkg/hosts/hosts.go:79-108 | every entry of a file is found if and only if no entry stands in a managed block from the first long line on |
| Hosts.EveryOtherLineStaysIff | pkg/hosts/hosts.go:132-162 | cleaning keeps every line outside managed blocks if and only if nothing but empty lines stands there from the first long line on |
| Hosts.LastMarkerDecides | pkg/hosts/hosts.go:86-95 | whether a position is in a managed block is decided by the last marker before it |
| Hosts.KindOfIff | pkg/hosts/hosts.go:86-95 | a line is a marker exactly if the marker stands in it after nothing but spaces, whatever follows |
| Hosts.EntryOfIff | pkg/hosts/hosts.go:96-104 | a line gives an entry exactly if, after spaces, it begins with an address that does not start with '#', a gap and a name; what follows the name does not count |
| Hosts.ValidateEntries | pkg/hosts/hosts.go:47-54 | accepts exactly lists of names that follow section 2.1 of RFC 1123 |
| Hosts.ValidHostnameIff | pkg/hosts/hosts.go:25-43 | the accepted names character by character: letters, digits, hyphens and dots, letters or digits next to a dot and at the ends, at most 253 in all and 63 between dots |
| Hosts.ValidHostnameFits | pkg/hosts/hosts.go:28-43 | every accepted name can be written for the local address and read back |
| GenDispatcher.WriteExpr | cmd/gen-dispatcher/main.go:229-256 | appends the text of the type |
| GenDispatcher.FindClose | cmd/gen-dispatcher/main.go:281-292 | the bracket loop stops behind the matching bracket |
| GenDispatcher.ExtractPkgRefs | cmd/gen-dispatcher/main.go:271-304 | adds exactly the references of the text |
| GenDispatcher.TextIsBalanced | cmd/gen-dispatcher/main.go:229-292 | the bracket search passes over the text of any type |
| GenDispatcher.TextDenotesTheType | cmd/gen-dispatcher/main.go:229-256 | the text of a type without variadic or unsupported parts can be read back as that type: a map's key and value, and every pointer, slice and selector, stand where they belong |
| GenDispatcher.ReaderAgreesWithPrinter | cmd/gen-dispatcher/main.go:229-304 | reading a printed type finds exactly its packages outside variadic and unsupported parts |
| GenDispatcher.ParameterPackagesAreFound | cmd/gen-dispatcher/main.go:229-304 | for a parameter's type it finds every package if and only if the parameter is not variadic over a type that names one |
| GenDispatcher.CollectPackageRefs | cmd/gen-dispatcher/main.go:260-268 | the loop over all parameters collects all their references |
| GenDispatcher.CollectedPackagesAreTheVisibleOnes | cmd/gen-dispatcher/main.go:260-304 | a package is collected if and only if some parameter names it visibly |
| McpArgs.BuildArgs | pkg/ai/codex_cli.go:280-298 | the argument list: each flag followed by its value, context and tools only if there are any, the commands always and last |
| McpArgs.ShortNamesAreTheServersTools | pkg/ai/codex_cli.go:286-292 | a short name is passed on if and only if the prefixed tool is allowed |
| McpArgs.ShortNamesInOrder | pkg/ai/codex_cli.go:286-292 | the short names stand for the tools with the prefix, one for one and in order |
| McpArgs.ParseArgs | main.go:92-111 | the index loop yields the settings, or none outside MCP mode |
| McpArgs.LaterValueCounts | main.go:96-111 | of two values for one flag the later one counts |
| McpArgs.OthersAreSkipped | main.go:96-111 | an argument that is no flag, or a flag that nothing follows, changes nothing |
| McpArgs.ParsedArgs | main.go:92-111 | what comes back for any values, also those that look like flags |
| McpArgs.RoundTrip | pkg/ai/codex_cli.go:280-298 | the server gets the context, tools and commands it was built with if and only if no tool has a comma, no command a bar, and the commands are not one empty command |
| McpArgs.SplitUndoesJoinIff | main.go:100-104 | splitting recovers a joined list if and only if it is not empty and free of the separator |
| ToolLoop.MarkersAreWriterAndReader | pkg/ai/anthropic_api.go:221-255 | after a pass the marked blocks are exactly the last markable ones of the last message but one and of the one two before it; no stale marker survives |
| ToolLoop.AtMostFourMarkers | pkg/ai/anthropic_api.go:76-98 | a request has at most two marked message blocks and four markers in all |
| ToolLoop.ReaderFollowsWriter | pkg/ai/anthropic_api.go:210-240 | when two messages are added, the block written last is the block read next and the text before is unchanged |
| ToolParams.LastToolIsMarked | pkg/ai/anthropic_tools.go:38-45 | of the tools sent only the last is marked |
| ToolLoop.EveryRequestIsWithinBudget | pkg/ai/anthropic_api.go:86-108 | the marker budget holds for every request of a run |
| ToolLoop.CacheCascades | pkg/ai/anthropic_api.go:86-161 | the cascade holds from each request of a run to the next |
| ToolLoop.ResultsAnswerCalls | pkg/ai/anthropic_api.go:154-161 | the next request ends with the message of the turn, apart from markers, and a message that answers its tool_use blocks one for one, in order, by id, with what the tools returned |
| ToolLoop.StreamProtocol | pkg/ai/anthropic_api.go:84-169 | a stream that finishes ends in its only Done; one that fails or is cancelled has none |
| ToolLoop.TurnIsShown | pkg/ai/anthropic_api.go:100-161 | a turn with tools shows its text, then each of its tool_use blocks in order, then the result of each |
| ToolLoop.EverythingStreamedIsShown | pkg/ai/anthropic_api.go:100-169 | the texts of the events, put together, are all chunks the requests have streamed, however the run ends |
| ToolLoop.EndingIsEarned | pkg/ai/anthropic_api.go:84-169 | every round but the last was a whole turn with tools; the last one decides: cancelled, failed, finished without tools, or stopped after 25 rounds with an error notice |
| ToolLoop.UsageAddsUp | pkg/ai/anthropic_api.go:263-302 | the usage the last event reports is the sum over all turns, count by count |
| ToolLoop.Conversation.ApplyMessageCacheBreakpoints | pkg/ai/anthropic_api.go:221-240 | the clearing loops and the two marks in place; nothing but markers changes |
| ToolLoop.Conversation.MarkMessageCacheBreakpoint | pkg/ai/anthropic_api.go:248-255 | the backward loop marks the last block that can be marked, or nothing |
| ToolLoop.ConvertHistory | pkg/ai/anthropic_api.go:189-208 | user and assistant messages in order, others dropped, the new message last |
| ToolLoop.ChatsAreSent | pkg/ai/anthropic_api.go:189-208 | of any history the messages of the user and the assistant are sent in order, in their roles and with their texts, and no others |
| ToolLoop.HistoryIsSentWhole | pkg/ai/anthropic_api.go:189-208 | a history of questions and answers is sent message by message with the same roles and texts |
| ToolParams.BuildToolParams | pkg/ai/anthropic_tools.go:19-45 | the allowed tools, each where it stands among the known ones, in order, the last one marked |
| ToolParams.AllowedToolsInOrder | pkg/ai/anthropic_tools.go:19-37 | the tools offered are exactly the known ones that are allowed, in their order |
| ToolParams.MakeAllowSet | pkg/ai/anthropic_tools.go:60-75 | the allowed names with the prefix of the MCP server removed where they have it |
| ToolParams.OfferedIff | pkg/ai/anthropic_tools.go:19-75 | a known tool is offered if and only if it is allowed with the prefix in front, or by a bare name that does not itself begin with the prefix |
| ToolLoop.ExtractToolUses | pkg/ai/anthropic_tools.go:78-86 | the calls of exactly the tool_use blocks of the message, one for one, in order |
| ToolLoop.ExecuteToolsAndBuildResult | pkg/ai/anthropic_tools.go:117-163 | one result block and one event for each call, with the error cases |
| ToolLoop.RunTurn | pkg/ai/anthropic_api.go:84-161 | one turn of the loop: what is sent, emitted and appended, and how it ends |
| ToolLoop.SendMessage | pkg/ai/anthropic_api.go:62-169 | the whole loop: its outcome, its events, the usage it reports and every request, for everything the outside may do |
| Sessions.RunRequest | pkg/ai/manager.go:349-398 | the goroutine of a request: the events of the provider and, if it fails, one terminal response that says how (cancelled, timed out or failed); exactly one terminal response in all, as the last one |
| Sessions.Forward | pkg/ai/manager.go:374-388 | each event is forwarded as a response that says the same, and the text collected is the text of the events |
| Sessions.EveryRunFromTheStart | pkg/ai/manager.go:329-427 | in every interleaving of requests, cancellations, deadlines and a close: only the newest context can be live; what each request has sent and will send is a stream with one terminal response, at the end; the history is the exchanges of the finished requests, each once, in the order in which they finished; and each request was given a beginning of it |
| Sessions.EveryRunIsKept | pkg/ai/manager.go:329-427 | the same from any state that satisfies it |
| Sessions.NothingFollowsATerminal | pkg/ai/manager.go:349-398 | no response of a generation follows its terminal one, however the requests interleave |
| Sessions.EndedRequestIsComplete | pkg/ai/manager.go:349-415 | a request that has ended has sent exactly one terminal response, last, and recorded the text that was shown |
| Sessions.RecordedStandsInTheHistory | pkg/ai/manager.go:400-415 | in every state that a run can reach, the question of each recorded request stands at its place in the history as the user's, followed by the text the window was shown for it, if any, as the assistant's |
| Sessions.BeginsAfresh | pkg/ai/manager.go:333-347 | a new request has the next generation, the history so far and a live context; the context before it is no longer live |
| Sessions.FailureSaysWhy | pkg/ai/manager.go:389-398 | the last response of a failed request says whether it was cancelled, timed out or failed |
| Sessions.CancelAndCloseEndTheNewest | pkg/ai/manager.go:419-469 | a cancel ends the live context of the newest request and nothing else; a close does the same and takes the session away |
| Sessions.EveryRequestCanEnd | pkg/ai/manager.go:349-415 | from any state a request that is still streaming can be brought to its end without any new request |
| Sessions.StaysInOrderIff | pkg/ai/manager.go:400-415 | what is under way is recorded in the order of the questions in every later run without new requests, if and only if at most one request may still be recorded and it is newer than all that are |
| Sessions.BeginStaysInOrderIff | pkg/ai/manager.go:333-347 | a new request that will finish keeps it so if and only if no request that will finish is still streaming in a session the manager has; one that will fail always does |
| Sessions.InOrderThroughoutIff | pkg/ai/manager.go:329-416 | this holds at every point of a run if and only if every beginning of a request that will finish meets that condition |
| Sessions.OrderFromTheStart | pkg/ai/manager.go:329-416 | both for every run of a new session |
| Sessions.SerialRequestsAreRecordedInOrder | pkg/ai/manager.go:400-415 | in a run in which no request that will finish begins while another such request is streaming, the history is in the order of the questions; requests that will fail may overlap anything |
| Sessions.OverlapCanReverse | pkg/ai/manager.go:333-347 | it does happen: while a request that will finish is streaming, one that begins can be recorded before it |
| Sessions.CallIsARun | pkg/ai/manager.go:329-416 | a whole call is a run of the machine, with these responses and this session after it |
| Sessions.Session.Begin | pkg/ai/manager.go:335-347 | the method is the locked beginning: it cancels the context of the request before, and gives the next generation with a live context and the history so far |
| Sessions.Session.Record | pkg/ai/manager.go:400-414 | the locked end of a finished request: to the history it adds the question as the user's, then the text, if there is any, as the assistant's, and nothing else |
| Sessions.Session.CancelRequest | pkg/ai/manager.go:419-427 | the method is the CancelRequest step: a live context of the newest request is cancelled |
| Sessions.Session.Close | pkg/ai/manager.go:430-469 | the method is the Close step |
| Sessions.Session.SendMessageOneShot | pkg/ai/manager.go:329-416 | the call that no other request of the session overlaps: one terminal response at every exit, which says how it ended; the history gains the question as the user's and exactly the text that was shown as the assistant's, or nothing on failure; and the call is a run of the machine |

## Left out

- The Kubernetes client, SPDY, Helm, the AI services, the keyring, Wails and the web socket server: foreign calls; their answers are parameters.
- `app_*.go` wrappers, the generated dispatcher, the frontend and the issue rules: one-branch delegation or set lookups, which would only add easy members.
- Recovery from panics: a panic between a forwarded Done and the end of the goroutine would add a second terminal event; the models have no panics.
- EventCoalescer.Coalescer.EmitEvent: reads the frame interval under the lock, because the unsynchronised read of the source is a data race outside the atomic steps.
- WatcherManager.Manager.Subscribe: watchers are values in the map, so a caller that keeps a reference to a watcher after it was removed is not modelled; `RefCount` is unbounded where the source has 32 bits.
- WatchLoop.Watching.Receive: the check of the context and the emission that follows are one step, so an event emitted although the context was cancelled between the two (after StopAll or a restart) is in no run.
- WatchLoop.Watching.WatchResourceLoop: the loop alone owns its watcher entry; a restarted loop of the same key that shares it, and the entry replaced under a running loop, are not modelled. Status and error notifications, and the time measurements behind "closed within five seconds", are inputs or left out.
- PortForward.PortForwardManager.DeleteConfig: the class method is the call with nobody in between; the window without the lock is modelled in the steps BeginDelete and FinishDelete.
- PortForward.PortForwardManager.GetAvailablePort: the system's answers about ports do not change during one call.
- PortForward.PortForwardManager.SaveConfigs: JSON encoding and failures to write the file, which the source ignores.
- Reconnect.RunWithReconnect: a network that connects infinitely often keeps the source's loop running for ever; the model asks for a bound on connected attempts so that the method ends.
- IngressForward.IngressForwardManager.Start: no other goroutine changes the forwards meanwhile, and new ids are unused; port redirection with iptables, pfctl or netsh is left out, as are the other platforms' ways of writing the hosts file, which is replaced as a whole or not at all.
- Scanner.ScanAll: text is a sequence of characters, so the limit of 65536 counts characters, not bytes; a reader that delivers its last bytes together with the end of input is not modelled.
- HelmManifest.SplitManifest: the YAML decoding of each document and the selection of its kind and name.
- ToolLoop.ExecuteToolsAndBuildResult: shortening of results for the window; error texts are constructors rather than strings.
- ToolLoop.SendMessage: cost estimates and model names, which are table lookups and floating point.
- Sessions.Session.SendMessageOneShot: the class method is the call with no other request of the session in between; overlapping requests are modelled in the steps of `Sessions.State`. The refusals of `SendMessage` before a request begins are left out.
- The persistent sessions of `pkg/ai/manager.go` and the other AI providers.
