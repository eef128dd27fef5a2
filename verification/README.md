# Watchmen engine — a Dafny model

Watchmen is a service-uptime monitor. Its engine checks each registered
service periodically, classifies every check against the outage currently
open for that service, and emits events (`new-outage`, `current-outage`,
`service-back`, `service-ok`, `latency-warning`, `ping`) for observers. A
registry of services is started and stopped per id (`start`, `stop`) or in
aggregate (`startAll`, `stopAll`).

The engine's implementation (`lib/watchmen`) is not part of this model's
sources: the behaviour modelled here is the behaviour its test suite,
`test/test-watchmen.js`, pins down. Where the tests leave a detail open, the
model makes a choice of its own, listed under "Left out" below.

The model is functional:

- `wrappers.dfy` — `Option` (a JavaScript value that may be null or absent)
  and `Result` (an operation that returns or throws).
- `outages.dfy` — module `Outages`: services, probe results, outage records,
  events, and `Classify`, one check cycle as a pure function. Storage becomes
  the `Option<Outage>` passed in and returned; the prober becomes the
  `ProbeResult` passed in; the measured latency and the check time are plain
  integers. Emitted events are a returned sequence, and `Heard(events, name)`
  is what a listener registered for `name` receives, in order.
- `history.dfy` — module `History`: `Run`, a sequence of checks with the open
  outage threaded from each to the next, compared against `OpenSince`, an
  independent reference definition of "when did the open outage start".
- `lifecycle.dfy` — module `Lifecycle`: the registry (a map from service id to
  its running flag), `Start`, `Stop`, `StartAll`, `StopAll`. Starting records
  the immediate first check as a launched id.
- `fixture.dfy` — module `Fixture`: the test suite's service (`X34dF`,
  threshold 1500), its three probe responses and its fake clock, with each
  test case restated over the model.

Event order within one check: the status event (`new-outage`,
`current-outage`, `service-back` or `service-ok`), then the
`latency-warning` if any, then the `ping`, which always comes last.

## Model

| member | source | states |
|---|---|---|
| Outages.Classify | test/test-watchmen.js:39-119 | every check ends with a ping carrying the measured latency, error and body; afterwards an outage is open exactly when the check failed, with the probe's error and, while an outage was already open, that outage's original timestamp, otherwise the check's time |
| Outages.PingTask | test/test-watchmen.js:39-81 | a ping task's check time is the task's timestamp when it gives one and the clock's current time otherwise: a first failure opens its outage at that time with the probe's error |
| Outages.PingTaskFirstFailure | test/test-watchmen.js:39-51 | a ping task's first failure is heard once as "new-outage" carrying the task's timestamp, or the clock's time when the task gives none, and the probe's error |
| Outages.OneStatusPerCheck | test/test-watchmen.js:39-108 | each check is heard by exactly one of the "new-outage", "current-outage", "service-ok" and "service-back" listeners, once, and by none of the other three |
| Outages.EventNamesAreDistinct | test/test-watchmen.js:37-121 | the six event names listeners subscribe to ("new-outage", "current-outage", "service-ok", "ping", "service-back", "latency-warning") are pairwise different strings, so a listener's name selects exactly one kind of event |
| Outages.PingAlwaysHeard | test/test-watchmen.js:83-92 | "ping" listeners hear exactly one ping per check, with elapsedTime equal to the measured latency |
| Outages.FirstFailureIsNewOutage | test/test-watchmen.js:39-51 | a failure with no open outage is heard once as "new-outage" with the probe's error and the check's timestamp, and never as "current-outage", "service-ok" or "service-back" |
| Outages.RepeatedFailureIsCurrentOutage | test/test-watchmen.js:53-70 | a failure while an outage is open is heard once as "current-outage" with the probe's error and the open outage's original timestamp, and never as "new-outage", "service-ok" or "service-back" |
| Outages.SuccessIsServiceOk | test/test-watchmen.js:72-81 | a success with no open outage is heard once as "service-ok" with elapsedTime equal to the latency, and never as "service-back", "new-outage" or "current-outage" |
| Outages.SuccessAfterOutageIsServiceBack | test/test-watchmen.js:94-108 | a success while an outage is open is heard once as "service-back" carrying the open outage's record, its original timestamp included, never as "service-ok", "new-outage" or "current-outage", and no outage stays open |
| Outages.SlowSuccessWarns | test/test-watchmen.js:110-119 | a successful check is heard as "latency-warning" with elapsedTime equal to its latency exactly when the latency exceeds the service's warningThreshold, and not heard there otherwise |
| History.Run | test/test-watchmen.js:63-68 | over consecutive checks, "ping" listeners hear one ping per check; an outage is open at the end exactly when the last check failed |
| History.PingsFollowChecks | test/test-watchmen.js:83-92 | over consecutive checks, the i-th ping heard carries the i-th check's latency, error and body |
| History.RunKeepsOutageStart | test/test-watchmen.js:53-70 | the outage open after any sequence of checks started where the reference definition says: at the first failure of the trailing run of failures, or at the already-open outage's start when every check failed |
| History.RunKeepsNewestError | test/test-watchmen.js:53-70 | after a failing check the open outage carries that check's error |
| History.OutagesBalance | test/test-watchmen.js:94-108 | over any sequence of checks, "new-outage" events plus an outage open beforehand equal "service-back" events plus an outage still open at the end |
| History.FailuresWhileOpen | test/test-watchmen.js:53-70 | while an outage stays open, each failing check is heard as "current-outage" with the outage's original timestamp and its own error, and none as "new-outage" |
| History.FailureRun | test/test-watchmen.js:53-70 | a run of failures from a healthy service gives one "new-outage" at the first failure's time, then one "current-outage" per later failure, each carrying the first failure's time |
| Lifecycle.Construct | test/test-watchmen.js:125-131 | building the engine registers every given service by id, and none of them is running |
| Lifecycle.Start | test/test-watchmen.js:134-155 | start fails with InvalidServiceId exactly when the id is missing, empty or unregistered; otherwise the service runs, its first check is launched when it was stopped, no other service changes, and every registered id keeps exactly one running flag |
| Lifecycle.Stop | test/test-watchmen.js:168-198 | stop fails with InvalidServiceId exactly when the id is missing, empty or unregistered; otherwise the service is no longer running, no other service changes, and every registered id keeps exactly one running flag |
| Lifecycle.StopAll | test/test-watchmen.js:178-184 | after stopAll no registered service runs, and the registered services and their flags' keys are unchanged |
| Lifecycle.StartAll | test/test-watchmen.js:125-164 | after startAll every registered service runs; exactly the services that were stopped get their first check launched, each once; an empty registry is returned unchanged with nothing launched |
| Lifecycle.StopUndoesStart | test/test-watchmen.js:170-176 | stopping a service just started from stopped gives back the registry as it was |
| Lifecycle.StopIsIdempotent | test/test-watchmen.js:170-176 | stopping a stopped service succeeds and changes nothing |
| Lifecycle.StopAllIsIdempotent | test/test-watchmen.js:178-184 | stopAll twice is stopAll once, and after stopAll stopping any registered id changes nothing |
| Fixture.FirstFailureScenario | test/test-watchmen.js:39-51 | the suite's failing ping at the fake clock's time is heard as "new-outage" with "mocked error" and that time |
| Fixture.SecondFailureScenario | test/test-watchmen.js:53-70 | the suite's two failing pings give one "current-outage" with "mocked error" and the first failure's time |
| Fixture.ServiceOkScenario | test/test-watchmen.js:72-81 | the suite's successful ping is heard as "service-ok" with elapsedTime 300 |
| Fixture.PingScenario | test/test-watchmen.js:83-92 | the suite's successful ping is heard as "ping" with elapsedTime 300 |
| Fixture.ServiceBackScenario | test/test-watchmen.js:94-108 | the suite's successful ping against an outage opened at the initial time is heard as "service-back" with that time |
| Fixture.LatencyWarningScenario | test/test-watchmen.js:110-119 | the suite's 1600 ms ping against threshold 1500 is heard as "latency-warning" with elapsedTime 1600 |
| Fixture.StartStopByIdScenario | test/test-watchmen.js:134-184 | starting X34dF by id runs it and launches it; stopping it by id, or stopping all, leaves it not running |
| Fixture.InvalidIdScenario | test/test-watchmen.js:143-198 | start and stop with no id, with 4444444 or with 3333333 fail |
| Fixture.StartAllScenario | test/test-watchmen.js:125-132 | startAll over the suite's service launches exactly X34dF and leaves it running |
| Fixture.EmptyRegistryScenario | test/test-watchmen.js:157-203 | startAll and stopAll over no services succeed and launch nothing |

## Left out

- Timers, the fake clock and rescheduling: the next check's delay (`interval`
  4000 or `failureInterval` 5000) is not modelled; no test asserts which one
  follows a check. The two intervals are kept in `Service` only as configuration.
- Downtime: no test asserts a closed outage's downtime, so `service-back`
  carries the open outage record without one.
- The event emitter's mechanics (listener registration, isolating a failing
  listener) and the `done` callback of `ping`: events are a returned sequence.
- The mocked storage and prober and the real prober's network I/O: storage is
  the `Option<Outage>` threaded through checks, and the prober's answer and the
  latency the engine measures around it are inputs.
- Storage errors and their propagation.
- The service's host and url: opaque to the engine.
- Latency warnings on failing checks: the model chooses to warn only on
  successful checks; no test asserts either way, and no contract here states
  anything about a failing check's warnings.
- Starting an already-running service: the model succeeds and launches
  nothing, so that a service never has two scheduling loops; the tests only
  start stopped services.
- Empty ids: `Start` and `Stop` reject the empty id, since JavaScript treats
  `''` as falsy like a missing id; the tests only exercise a missing id and
  unregistered ids. `StartAll` and `StopAll` still start and stop a service
  registered under the empty id, since they do not go through id validation.
- Services sharing an id: the registry keys running flags by id, so two
  configured services with the same id share one flag, whereas the engine
  sets `running` on each service object.
