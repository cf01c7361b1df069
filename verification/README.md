# go-connect-kit: verified models

Dafny models of the parts of go-connect-kit whose guarantees span several functions or
several goroutines, with proofs of those guarantees. `dafny verify dfyconfig.toml` checks the
whole project.

## Consul registration (`registry/consul.go`)

- `ConsulOptions`, `Backoff`: option validation and the 64-bit retry delay.
- `ConsulRegistry`: `RegisterContext`, `TTLCheckPinger` and `Maintain` as methods of an object.
  What the agent and the context do is a script with one entry per loop iteration; a script
  that runs out stands for a loop that is still running.
- `ConsulProtocol`: the same loop as a transition system, together with any number of
  `Shutdown` callers and an agent. `LoopMove` follows lines 222-301 and 347-433 (one action
  per call, store, send, reply or select), `CallerMove` and `CallerStores` follow lines
  435-489, `RemoteMove` is the agent. Loads and stores of the two atomics, the gate and the
  closing of `done` are separate steps, so every interleaving is covered.
- `ConsulSafety` holds the inductive invariants, `ConsulRuns` the theorems over whole runs,
  `ConsulOrder` the order of the steps, `ConsulProgress` what can still be reached from any state,
  `ConsulLatePing` the limit of the main theorem, `Heartbeat` the timing of the pinger.

Assumptions: the system starts after one `OnStart`, and `Shutdown` is called after it; only
`Maintain` registers; a register request may be committed at any later time, once; the agent
may lose its record at any time, turns a check critical one TTL after its last update, and
removes a critical service exactly at its removal delay. A service is passing only if its TTL
check is, so the optional gRPC check can only make it less often passing.

Two findings. First, "never passing again after a successful deregistration" needs that the
agent does not apply a TTL update after the call for it has returned:
`ConsulLatePing.SilentIffNoLatePings` proves the guarantee with that assumption and exhibits,
for every valid configuration, a run that breaks it without;
`ConsulLatePing.SilentIffNoStrayAfterExecution` says of each single run when it holds. Second,
validation only asks that the ping interval is shorter than the TTL, but for calls of up to a
given latency the lease is kept exactly when that latency plus the longer of interval and
latency is shorter than the TTL (`Heartbeat.GapsBelowTTLIff`). With the default interval of 10
seconds and the request timeout of 15 seconds that asks for a TTL above 30 seconds
(`Heartbeat.AcceptedLeaseIff`); `Heartbeat.ValidationLeavesNoMargin` gives an accepted
configuration that loses the lease with calls of one second.

## Hot reload (`config`, `pgpool`, `redisclient`, `internal/stale`)

- `ConfigLive`: `Live` as an object; `LiveProtocol` and `LiveRuns`: concurrent `Set`,
  `Subscribe`, cancel and `Get` as a transition system (lock, swap, copy of the callbacks,
  start and end of each callback, unlock), with an exact account of what each subscriber gets.
- `ConfigWatch`: loading and watching. Decoding and validation are parameters.
- `HotResource`: start, pushes, drain timers and stop of a pool or client as a state machine;
  `Holder`: the objects, each method tied to that machine; `Stale`: records and gauge;
  `PoolOptions`: `Options.equal`; `HotReload`: the stack end to end, one event at a time;
  `HotReloadRuns`: a holder next to concurrent `Set`, `Subscribe` and cancel, up to its stop.

Boundary: `Set` copies the callbacks before it calls them, so unsubscribing does not stop a
call that is already copied. A finding: a stop hook that runs during a `Set` can lose a resource.
The copied callback may rebuild after the close, and then the new resource stays open and the
old one is closed twice (`HotReloadRuns.StopDuringSetLeaks`, `HotResource.LateRebuildClosesTwice`).
When a stop is safe is known at the moment it unsubscribes: it is, on every continuation, exactly
when no call is owed to the holder then, or that call's snapshot asks for the options already in
use (`HotReloadRuns.UnsubscribeIsCleanIff`). Between two `Set` calls nothing is owed, so such a
stop always conserves (`HotReloadRuns.QuietStop`). The theorems about staleness assume that no
`Set` falls between taking the initial snapshot and subscribing. Builds succeed or fail as the
environment decides, and a rebuild is one step of the callback it is in. Each holder has a ledger
of its own for the resources it creates.

## Telemetry, errors, schema locations

- `Otel`: staged setup, rollback and the reverse shutdown; `OtelOnce`: concurrent callers of
  the shutdown.
- `GoErrors`: error trees with the searches of the standard `errors` package; `ErrInfo`:
  provenance; `DbUtil`: the two database error mappers and `WrapError`. A finding: `WrapError`
  of nil returns a non-nil error, unlike the other two (`DbUtil.WrapErrorNilIff`).
- `ConfigSchema`: the sorted, distinct leaf locations of a validation error.

## Model

| member | source | states |
|---|---|---|
| ConsulOptions.TTLPingInterval | registry/consul.go:398-403 | a configured positive interval is used as it is, and ten seconds otherwise |
| ConsulOptions.ValidateAndNormalize | registry/consul.go:222-251 | accepts exactly the acceptable options, returns the port parsed, and changes only an unset removal delay (to one minute); each error is reported exactly when its rule is the first one violated |
| ConsulOptions.RevalidationIsStable | registry/consul.go:142-146 | options kept by module start pass the validation of every later registration unchanged |
| Backoff.Base | registry/consul.go:349-352 | a configured positive base delay is used, one second otherwise |
| Backoff.Cap | registry/consul.go:353-355 | the configured cap is used unless it is below the base delay, which then is the cap |
| Backoff.DelayIsCapped | registry/consul.go:389-394 | after k waits the delay is min(base * 2^k, max), given that no doubling leaves 64 bits |
| Backoff.BackoffExact | registry/consul.go:389-394 | the delay follows capped exponential backoff for every k if and only if no doubling below the cap overflows |
| Backoff.SmallCapFits | registry/consul.go:389-394 | any cap up to 2^62 is free of overflow |
| Backoff.DefaultsFit | registry/consul.go:30-31 | with the defaults the delays are 1, 2, 4, 8, 16 and then 30 seconds for good |
| ConsulRegistry.TTLCheckPinger | registry/consul.go:406-433 | fails iff the first update or the first event that is not a good tick is a failed update; stops iff that event is the cancellation; returns exactly how many updates succeeded |
| ConsulRegistry.FirstOtherUnique | registry/consul.go:422-432 | the event that ends the pinger is unique, so it cannot both stop and fail |
| ConsulRegistry.RoundEnds | registry/consul.go:359-388 | an iteration ends the loop only for a cancellation it gets to see, keeps pinging only while every update succeeds, and retries after any failure that no cancellation cuts short |
| ConsulRegistry.ConsulRegistry.constructor | registry/consul.go:210-218 | a new registry has attempted and registered nothing |
| ConsulRegistry.ConsulRegistry.RegisterContext | registry/consul.go:259-301 | invalid options send nothing and leave both flags; otherwise one request is sent, registerAttempted was set before it and registered was not touched before it, and registered is set iff it is accepted |
| ConsulRegistry.ConsulRegistry.Maintain | registry/consul.go:347-396 | returns exactly on cancellation or, having sent nothing, on invalid options; every iteration sends one request marked before sending, and registered is on at that moment iff it was on before or an earlier one was accepted; the waits follow the loop's failure count and delay |
| ConsulRegistry.WaitIsCapped | registry/consul.go:365-394 | the wait after the k-th failure in a row is min(base * 2^(k-1), max), a failed heartbeat counting as the first |
| ConsulRegistry.ConsulRegistry.MaintainAgainstRejections | registry/consul.go:347-396 | an agent that rejects n requests and accepts the next is registered with by exactly request n+1, up to whose sending the registered flag is as before, after n waits; with usable configured delays wait k is min(base * 2^(k-1), max) of the configured values |
| ConsulProtocol.NewTTLCheck | registry/consul.go:303-313 | every register request starts critical and carries the configured TTL and removal delay, both positive |
| ConsulSafety.StepKeeps | registry/consul.go:435-489 | each step of loop, caller or agent keeps the invariants on gate, join, flags, requests, silence and backoff |
| ConsulSafety.Reachable | registry/consul.go:347-489 | the invariants hold in every state of every run |
| ConsulRuns.JoinBeforeDeregister | registry/consul.go:445-455 | each deregister request is sent after Maintain returned and done was closed, and no register request or TTL update is sent after it |
| ConsulRuns.OneDeregistrationInFlight | registry/consul.go:467-472 | at most one deregister request is unanswered, and its sender holds the gate |
| ConsulRuns.OneDeregistrationSucceeds | registry/consul.go:473-488 | at most one deregistration of a run succeeds |
| ConsulRuns.RegisteredImpliesAttempted | registry/consul.go:288-294 | whenever the gate is free, registered implies registerAttempted |
| ConsulRuns.ShutdownNilMeansGone | registry/consul.go:476-488 | a nil Shutdown means that no register request is ever sent, or that a deregistration succeeded before it and after all of them |
| ConsulRuns.NeverPassingAgain | registry/consul.go:303-313 | after a successful deregistration the service is never passing; a late record is critical and within its positive removal delay |
| ConsulRuns.NilShutdownIsFinal | registry/consul.go:435-489 | from the moment any Shutdown returns nil the service is never passing, under any interleaving |
| ConsulRuns.LateRecordExpires | registry/consul.go:243-249 | a late record is gone once its removal delay is over, unless another late commit replaced it |
| ConsulRuns.CommitsBounded | registry/consul.go:288-293 | commits and requests still in flight together never exceed the requests sent |
| ConsulRuns.WaitIsCappedBackoff | registry/consul.go:377-394 | in every interleaving the k-th consecutive wait since the last success is min(base * 2^(k-1), max) |
| ConsulRuns.ConfiguredWaits | registry/consul.go:347-394 | the same in terms of the configured base delay and cap, when they are usable |
| ConsulRuns.DelayInRange | registry/consul.go:349-358 | the delay stays between base and cap while the loop runs |
| ConsulRuns.InvalidOptionsSendNothing | registry/consul.go:373-376 | with invalid options nothing is sent or marked, by the loop or by any Shutdown |
| ConsulRuns.ReturnsOnlyWhenCancelled | registry/consul.go:359-388 | the loop is over only if it was cancelled or the options are invalid |
| ConsulRuns.CancelledLoopEnds | registry/consul.go:359-388 | after a cancellation the loop takes at most seven more steps, and three for each call that still succeeds, whichever branches its selects take |
| ConsulRuns.CancelledLoopEndsInSeven | registry/consul.go:290-290 | if no call sent after the cancellation succeeds, the loop takes at most seven more steps, even if the one outstanding succeeds |
| ConsulRuns.CancelledLoopCanFinish | registry/consul.go:359-388 | a cancelled loop is never stuck: wherever it is, at most seven steps of its own let it finish without any call succeeding |
| ConsulOrder.HeartbeatFailureReRegisters | registry/consul.go:367-394 | after a failed heartbeat no TTL update is sent before a new registration is accepted |
| ConsulOrder.WaitBeforeRetry | registry/consul.go:380-388 | between any failure and the next register request a wait has run its time |
| ConsulOrder.HeartbeatFailureIsFirst | registry/consul.go:365-384 | a failed heartbeat counts as the first failure: the wait begun first after it is the base delay |
| ConsulOrder.WaitLasts | registry/consul.go:384-388 | a wait that is begun lasts as long as it was begun for |
| ConsulOrder.TickBetweenPings | registry/consul.go:422-431 | between two TTL updates there is a tick or a new registration |
| ConsulOrder.PingsAtOnce | registry/consul.go:365-421 | an accepted registration is followed by a TTL update before anything else of the loop but storing the flag |
| ConsulOrder.RegisteredSince | registry/consul.go:294-294 | registered is on exactly from an accepted registration up to a successful deregistration |
| ConsulOrder.CancelledSince | registry/consul.go:441-444 | the loop is cancelled exactly from the first Shutdown that cancels on |
| ConsulOrder.CancelsFirst | registry/consul.go:435-444 | whatever else a Shutdown does, it has cancelled the loop first |
| ConsulOrder.ChecksBeforeSending | registry/consul.go:463-475 | before a deregister request is sent its Shutdown found its context alive after the join and again with the gate held |
| ConsulOrder.DeregistersWhatWasAttempted | registry/consul.go:476-479 | a deregister request is sent only if a registration was attempted |
| ConsulOrder.DecisionOfLoads | registry/consul.go:476-479 | the two loads in a row decide to deregister if either flag is on, and otherwise to succeed without |
| ConsulOrder.SecondLoadSeesNothing | registry/consul.go:476-476 | with the gate held registered is off whenever registerAttempted is, so the second load never changes the decision |
| ConsulOrder.FailureHasCause | registry/consul.go:448-488 | a Shutdown fails only because its context has expired or its own deregister request failed |
| ConsulProgress.RegistrationHeals | registry/consul.go:358-395 | with valid options and no cancellation the loop can get back to a passing registration from any state |
| ConsulProgress.ShutdownCanSucceed | registry/consul.go:435-489 | with a live context, the loop joined and the gate free, a Shutdown can succeed from wherever it stands |
| ConsulProgress.ExpiredShutdownReturns | registry/consul.go:448-475 | a Shutdown whose context has expired can return by its own steps alone, wherever it stands |
| ConsulLatePing.SilentIffNoLatePings | registry/consul.go:413-421 | the never-passing guarantee holds on all runs of a valid configuration if and only if TTL updates are never applied after their call returned |
| ConsulLatePing.SilentIffNoStrayAfterExecution | registry/consul.go:413-421 | on each single run the service is never passing after an executed deregistration iff no stray TTL update is applied after the execution |
| ConsulLatePing.SilentIffNoStrayAfterReply | registry/consul.go:473-488 | and never after a successful reply iff it is not passing at the reply and no stray TTL update is applied later |
| Heartbeat.OnSchedule | registry/consul.go:409-431 | with calls no longer than the interval, update k is sent at k intervals; no tick is missed or shifted |
| Heartbeat.NextSend | registry/consul.go:409-431 | however long calls take, an update is sent when the call before it is back and the next tick has fired, which is at most one interval away |
| Heartbeat.TicksStayOnGrid | registry/consul.go:409-431 | ticks keep to the multiples of the interval even after calls that outlast some of them |
| Heartbeat.GapsBelowTTLIff | registry/consul.go:406-433 | for any interval and any latency, heartbeats take effect less than one TTL apart under every call timing within the latency if and only if latency plus the longer of interval and latency is below the TTL |
| Heartbeat.AlwaysFresh | registry/consul.go:413-431 | between first and last heartbeat the check is always within one TTL of an update |
| Heartbeat.ExpiryNeverEnabledIff | registry/consul.go:409-431 | the agent's expiry rule is never enabled between two heartbeats, under every call timing within the latency, iff latency plus the longer of interval and latency is below the TTL of its record |
| Heartbeat.ValidatedLeaseHolds | registry/consul.go:234-241 | for validated options and calls that meet that bound the lease never lapses |
| Heartbeat.AcceptedLeaseIff | registry/consul.go:209-209 | under the client's request timeout an accepted TTL keeps the lease iff it exceeds the timeout plus the longer of timeout and interval, 30 seconds for the default interval |
| Heartbeat.ValidationLeavesNoMargin | registry/consul.go:238-241 | a validated configuration with calls shorter than the interval that loses the lease |
| ConfigLive.Live.constructor | config/live.go:32-45 | a nil initial message becomes an empty one; nobody is subscribed |
| ConfigLive.Live.Get | config/live.go:48-50 | returns the visible snapshot |
| ConfigLive.Live.CopyCallbacks | config/live.go:63-68 | lists each subscriber exactly once |
| ConfigLive.Live.Set | config/live.go:53-73 | nil changes nothing; otherwise the snapshot is replaced and each subscriber is called exactly once with the old and the new one, Get returning the new one meanwhile |
| ConfigLive.Live.Subscribe | config/live.go:76-81 | registers under an id never used before and changes no other subscription |
| ConfigLive.Live.Cancel | config/live.go:83-90 | removes that subscription only; again changes nothing |
| LiveProtocol.StepKeeps | config/live.go:48-91 | each step keeps mutual exclusion, the history, the registration bookkeeping and the account of deliveries |
| LiveProtocol.Reachable | config/live.go:48-91 | these invariants hold in every state of every run |
| LiveRuns.ReceivesExactlyThePublications | config/live.go:53-91 | a subscriber not cancelled has received exactly the consecutive pairs announced since it subscribed, once each and in order, save one still pending for it; Set calls may be in progress at either end, and between them everything published is delivered |
| LiveRuns.OneCallbackAtATime | config/live.go:58-72 | two Set calls are never notifying at the same time |
| LiveRuns.GetInsideCallback | config/live.go:48-72 | inside a callback Get returns its cur, and its old is the snapshot published just before |
| LiveRuns.AtMostOnceAfterCancel | config/live.go:63-90 | after cancel returned there is at most one more call, and only if a Set had already copied the callback |
| LiveRuns.CancelIsIdempotent | config/live.go:83-90 | at any time after a cancel, cancelling again changes nothing |
| LiveRuns.IdsAreFresh | config/live.go:77-81 | ids are never reused |
| LiveRuns.SubscribersExact | config/live.go:76-91 | the subscribers are those registered minus those cancelled |
| LiveRuns.PublishedOnce | config/live.go:53-61 | each Set past its swap has one place in the history, with its snapshot there |
| LiveRuns.EveryPlaceOwned | config/live.go:53-61 | every place after the initial snapshot was published by some Set |
| LiveRuns.RealTimeOrder | config/live.go:58-61 | a Set called after another returned is published after it |
| LiveRuns.LastHeardIsCurrent | config/live.go:58-72 | between Sets the last cur a live subscriber got is the visible snapshot |
| LiveProtocol.PairsAreNeighbours | config/live.go:61-72 | the pairs delivered are neighbours in the history, the old snapshot first |
| LiveRuns.SetCanFinish | config/live.go:53-73 | a Set that has the lock, or finds it free, can finish by its own steps, two for each subscriber and four more |
| ConfigWatch.NewWithOptions | config/config.go:75-104 | succeeds iff the source loads, the document decodes under the policy and, unless skipped, validates; the error tells which step failed |
| ConfigWatch.HandleEvent | config/config.go:165-184 | an event that is neither an error nor a deletion, decodes and validates becomes visible and is announced; any other changes nothing and notifies nobody |
| ConfigWatch.Watch | config/config.go:161-191 | after any events the visible snapshot is the last good one, else the initial one; exactly the good ones were ever visible |
| ConfigWatch.LastKnownGoodUnique | config/config.go:165-184 | the events determine the last known good snapshot |
| ConfigWatch.PublishedAreValid | config/config.go:173-182 | each published snapshot was decoded from a good event and, unless validation is skipped, is valid |
| ConfigWatch.PublishedExactly | config/config.go:165-184 | exactly the good events are published, once each and in order, good being spelled out in decoding, validation and the two flags |
| ConfigWatch.LoadAndWatch | config/config.go:75-104 | the snapshots ever visible are the loaded one and those of the good events, in order; the last known good one is visible; unless validation is skipped all are valid |
| ConfigWatch.WarnNotHotReloadable | config/config.go:199-210 | warns once for each old section whose message is gone or different, in their order, and for nothing else |
| ConfigWatch.LastNamedMeans | config/config.go:200-203 | of several sections with one name the last one counts |
| HotResource.BuildKeeps | pgpool/pgpool.go:221-248 | a build leaves open only what it returns; what it closes is new and closed once |
| HotResource.StartKeeps | pgpool/pgpool.go:165-179 | construction succeeds iff the build and the registrations do; a failed one closes what it created |
| HotResource.CleanStart | redisclient/redisclient.go:101-111 | over a ledger with nothing open, construction gives a good state or again nothing open |
| HotResource.PushKeeps | pgpool/pgpool.go:184-208 | a push, whatever the build does, keeps conservation and truthful staleness, unless it rebuilds after the stop |
| HotResource.PushTakesEffect | pgpool/pgpool.go:194-207 | a push of other options takes effect exactly when its build succeeds: the new resource, built with them, is visible and the old one drains for thirty seconds; otherwise all stays and the reason is reported |
| HotResource.SameOptionsClear | redisclient/redisclient.go:120-124 | a push of options like those in use clears the report and does nothing else |
| HotResource.RunKeeps | pgpool/pgpool.go:165-216 | over any pushes, builds, timers and stop the visible resource is built from applied, and stale iff the wanted options are not the applied ones; each resource is exactly one of current, draining and closed, none closed twice, the current one open until the stop and closed after it, if and only if no rebuild comes after the stop |
| HotResource.OperationsAreSafe | pgpool/pgpool.go:116-150 | what was visible at some time before the stop is not closed within the drain timeout after it, over any number of swaps |
| HotResource.DrainBoundExact | pgpool/pgpool.go:43-45 | one swap and a full drain timeout later it can be closed |
| HotResource.NothingLeftOpen | pgpool/pgpool.go:205-216 | after the stop and all drain timers everything created is closed, exactly once, if and only if no rebuild came after the stop |
| HotResource.LateRebuildClosesTwice | pgpool/pgpool.go:200-216 | a rebuild after the stop closes the old resource a second time and leaves the new one open |
| Holder.Resources.BuildPool | pgpool/pgpool.go:221-248 | creates at most one pool with the given options, and closes it when the ping fails |
| Holder.Resources.Probe | redisclient/redisclient.go:177-198 | creates one throwaway client and closes it whatever the ping says |
| Holder.Resources.BuildClient | redisclient/redisclient.go:154-169 | creates the real client only after a good probe that is closed again, and nothing for bad options |
| Holder.Live.OnUpdate | pgpool/pgpool.go:184-208 | other options take effect exactly when their build succeeds, and otherwise leave everything in use and say why; equal options clear the report; keeps the invariant iff it does not rebuild after the stop |
| Holder.Live.Swap | pgpool/pgpool.go:120-120 | makes the new resource visible and hands back the previous one |
| Holder.Live.FireTimer | redisclient/redisclient.go:136-142 | closes the drained resource and nothing else |
| Holder.Live.OnStop | redisclient/redisclient.go:145-149 | closes the visible resource |
| Holder.NewLive | pgpool/pgpool.go:165-179 | makes a holder iff the build and every registration succeed; a failed construction leaves nothing of its own open; a successful one is in a good state with its record registered for the gauge |
| Holder.ReadGauge | internal/stale/stale.go:81-92 | the gauge is 1 exactly when the options of the latest snapshot are not the applied ones |
| Stale.State.Set | internal/stale/stale.go:31-37 | records the reason, or clears it |
| Stale.State.Err | internal/stale/stale.go:40-45 | returns what was recorded last |
| Stale.Registry.Register | internal/stale/stale.go:60-79 | the record is exported in any case; the gauge is created once, and every call reports how that went |
| Stale.Registry.Observe | internal/stale/stale.go:81-92 | one reading per component: 1 iff a reason is recorded, else 0 |
| PoolOptions.Equal | pgpool/pgpool.go:82-91 | equality of all fields, with nil and empty type names the same |
| HotReload.Follow | config/config.go:165-184 | after any events and build outcomes the last known good snapshot is visible, the visible resource is open and built from applied, and it is stale iff that snapshot's options are not the applied ones; if every build succeeds they are applied |
| HotReload.Attach | pgpool/pgpool.go:156-161 | wiring builds from the visible snapshot and subscribes iff the build and every registration succeed, and otherwise leaves nothing open and no subscription |
| HotReloadRuns.StepKeeps | pgpool/pgpool.go:181-216 | each step of config.Live, callback, timer or stop hook keeps the holder in step: what it is owed, what it wants, and that the visible resource is built from applied |
| HotReloadRuns.InStepUnderAnyInterleaving | pgpool/pgpool.go:181-208 | under any interleaving a subscribed holder is, whenever no Set is running, built from applied, stale iff the visible snapshot's options are not the applied ones, and every resource is exactly one of current, draining and closed |
| HotReloadRuns.ReloadsTakeEffect | pgpool/pgpool.go:184-204 | under any interleaving, if every build since subscribing succeeded, the visible snapshot's options are in use whenever no Set is running |
| HotReloadRuns.AtMostOneMoreUpdate | pgpool/pgpool.go:210-213 | after unsubscribing the holder is told of at most one more snapshot, the one visible then, and of none unless a call is owed |
| HotReloadRuns.QuietStop | pgpool/pgpool.go:210-215 | a stop that unsubscribes while no Set is running conserves every resource ever after; with the drain timers done each is closed exactly once |
| HotReloadRuns.UnsubscribeIsCleanIff | pgpool/pgpool.go:210-215 | seen from the moment of unsubscribing, all resources are conserved on every continuation iff no call is owed to the holder, or its snapshot asks for the options in use |
| HotReloadRuns.StopIsCleanIff | redisclient/redisclient.go:145-149 | the same from any later moment, before or after the close |
| HotReloadRuns.StopDuringSetLeaks | config/live.go:63-72 | a run in which the callback copied before the stop rebuilds after it, so that the new resource stays open |
| HotReload.PostgresNotStale | pgpool/pgpool.go:188-192 | not stale means that every option of the latest snapshot is in use |
| HotReload.RevertClears | redisclient/redisclient.go:120-124 | reverting a failed push clears the record without building or swapping |
| GoErrors.AsSearches | errinfo/errinfo.go:88-91 | the search finds a node with the property iff the tree has one |
| GoErrors.AsPrefersEarlier | errinfo/errinfo.go:88-91 | the search prefers the outermost node, and below a join the first branch that has one |
| GoErrors.Join | otel/otel.go:87-87 | nil iff both are nil; each argument can be found in the result |
| ErrInfo.OriginOfFinds | errinfo/errinfo.go:104-110 | reports an origin iff the tree has a layer, and one that is there |
| ErrInfo.OriginOfOuter | errinfo/errinfo.go:104-110 | the origin is that of the outermost layer, in a join of the first branch with one |
| ErrInfo.ReasonOfFinds | errinfo/errinfo.go:49-56 | the reason is that of a sentinel in the tree if there is one, and UNSPECIFIED otherwise |
| ErrInfo.ReasonOfOuter | errinfo/errinfo.go:49-56 | a sentinel states its own reason, wrapping passes it on, and a join takes it from the first branch with one |
| ErrInfo.HereAddsOneAtMost | errinfo/errinfo.go:84-101 | on any tree adds one layer with the caller's location iff there is none, never hides an earlier origin, and is idempotent; without an error or a known caller nothing changes |
| ErrInfo.HereIsTransparent | errinfo/errinfo.go:49-56 | never changes the reason, nor what errors.Is finds apart from the new layer |
| ErrInfo.InnermostOriginWins | errinfo/errinfo.go:77-110 | along any wraps and Here calls at most one layer is added, the origin is the first one, and reason and cause stay |
| DbUtil.MappersAgree | dbutil/handler.go:77-177 | what HandleError reports as handled MustHandleError maps to the same error, and both make the same logger calls |
| DbUtil.MappersAgreeExactly | dbutil/handler.go:82-177 | the results are the same iff handled, nil, or neither no-rows nor a PostgreSQL error |
| DbUtil.NoRowsAnswer | dbutil/handler.go:87-101 | a no-rows error is answered by the caller's own error, else by the callback, else by the fixed error; else HandleError hands it back and MustHandleError says not found |
| DbUtil.MappedAnswer | dbutil/handler.go:115-119 | the business error mapped to the code of the first PostgreSQL error comes back from all three entry points and can be found in the result |
| DbUtil.UnmappedAnswer | dbutil/handler.go:121-131 | any other error comes back from HandleError and stays reachable, is wrapped by WrapError, and is replaced by a message in MustHandleError only if PostgreSQL |
| DbUtil.WrapNoRowsAnswer | dbutil/handler.go:125-131 | WrapError answers no-rows errors by the callback, else by the fixed error, else by wrapping |
| DbUtil.LogsOnce | dbutil/handler.go:87-113 | one logger call iff logging is on and there is an error, naming the PostgreSQL error iff that is what was found |
| DbUtil.HandledIff | dbutil/handler.go:82-122 | handled iff a mapping exists for no-rows, or else for the code of the first PostgreSQL error |
| DbUtil.ResultsCarryOrigin | dbutil/handler.go:75-138 | every non-nil result of the three entry points carries an origin |
| DbUtil.WrapKeepsCause | dbutil/handler.go:125-131 | an unmapped error and all below it stay reachable, with its reason |
| DbUtil.WrapErrorNilIff | dbutil/handler.go:125-131 | nil only for a no-rows error whose handler returns nil, or else for a PostgreSQL error whose code is mapped to nil; in particular not for nil |
| Otel.ShutdownGroup.constructor | otel/otel.go:74-78 | a new group has recorded and run nothing |
| Otel.ShutdownGroup.Add | otel/otel.go:80-82 | records one more shutdown at the end |
| Otel.ShutdownGroup.Shutdown | otel/otel.go:84-92 | the first call runs everything recorded in reverse order and joins the errors; later calls run nothing and return the same |
| Otel.JoinNilIff | otel/otel.go:86-88 | the joined error is nil iff every shutdown succeeded |
| Otel.JoinKeepsAll | otel/otel.go:86-88 | each failed shutdown can be found in the joined error |
| Otel.ProvidersExact | otel/otel.go:156-187 | the providers recorded before a step are those of the enabled signals set up earlier, once each, in order |
| Otel.Rollback | otel/otel.go:153-153 | shuts down what is recorded and joins the errors |
| Otel.FailureShutsDown | otel/otel.go:151-185 | what a failed setup has shut down are exactly the enabled providers before the failing step, in reverse setup order |
| Otel.FailureIsFound | otel/otel.go:153-153 | the failure and every error of a shutdown can be found in the error of a failed setup |
| Otel.SetupTrace | otel/otel.go:156-163 | records the tracer, or fails with what was recorded shut down |
| Otel.SetupMetric | otel/otel.go:165-178 | records the meter before the runtime metrics start, or fails with what was recorded shut down |
| Otel.SetupLogging | otel/otel.go:180-187 | records the logger, or fails with what was recorded shut down |
| Otel.SetupOTelSDK | otel/otel.go:137-190 | for every set of signals and every failing step, exactly the providers recorded before the first failure are shut down, once each and in reverse, before the error returns; on success none is |
| Otel.SdkLifecycle.OnStart | otel/otel.go:121-128 | succeeds iff nothing is enabled or every step does; the error joins the first failure with those of the rollback; the shutdown is kept only on success |
| Otel.SdkLifecycle.Stop | otel/otel.go:105-113 | nil and nothing run before a successful start; afterwards the once-only shutdown |
| OtelOnce.StepKeeps | otel/otel.go:84-92 | each step of any caller keeps what has run and what is left in order, and the join of both |
| OtelOnce.AllCallersAgree | otel/otel.go:84-92 | when any caller returns all shutdowns have run in reverse order, and all callers get the same joined error |
| OtelOnce.NeverTwice | otel/otel.go:84-92 | at every moment what has run is a beginning of the reverse order |
| OtelOnce.CallerCanReturn | otel/otel.go:84-92 | every caller of the shutdown can return, whoever runs it |
| ConfigSchema.Visit | configschema/validate.go:60-74 | adds exactly the shown leaf locations of the tree |
| ConfigSchema.SortStrings | configschema/validate.go:80-80 | sorts a list without duplicates |
| ConfigSchema.Locations | configschema/validate.go:53-82 | a non-empty, strictly increasing list of exactly the locations of the leaves of the tree, the empty one as a slash; one fixed entry for other errors |
| ConfigSchema.LeafLocationsExact | configschema/validate.go:62-74 | a string is a leaf location iff some leaf among the causes is shown as it |
| ConfigSchema.LessMeans | configschema/validate.go:80-80 | the order of the list: a proper prefix comes first, and otherwise the first difference decides |
| ConfigSchema.SortedListUnique | configschema/validate.go:76-81 | the answer does not depend on the order of the map iteration |

## Left out

- Registration before start: a `Shutdown` before `OnStart`, and `Register` or `RegisterContext` called by others than `Maintain`.
- gRPC readiness check: its defaults and its own health; it never makes a service passing by itself.
- Client construction, TLS and certificates, HTTP transport, Fx wiring, YAML and protobuf decoding, and field copying in `buildConfig` and `buildOptions`: foreign code or one branch each.
- Text parsing: durations and addresses appear as the results of parsing them.
- Holder.NewLive: opens a ledger of its own; resources that other holders of the process have open are not in it.
- Real time: clocks are integers, durations nanoseconds, and the ticker of `Heartbeat` wakes its reader without delay.
- Holder.Live.OnUpdate: the mutex around it is not modelled, because `Set` calls it for one snapshot at a time (`LiveRuns.OneCallbackAtATime`).
- HotReload.Follow: runs the holder's callback right after `Set` has recorded its calls, because a callback that changes another object cannot be stored in a value.
- ConfigSchema.SortStrings: stands for the library's in-place sort and works on a value.
- Error from closing a resource: logged or returned by the code, without effect on what is open.
- The table of PostgreSQL messages in `MustHandleError`: a function parameter.
- Handler options, `errinfo.New` and its reason pattern, `Origin.String`, path trimming.
- Global providers and propagators set during telemetry setup; they stay set after a rollback.
- `rpcobs`, `log`, `env`, `meta`, configuration sources, `sampleRatio`, `SQLSpanName`: only easy claims.
