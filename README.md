# Alerting decisions of the gatus watchdog, modelled in Dafny

This project models `HandleAlerting(endpoint, result, alertingConfig)` of gatus's
`watchdog` package. The monitoring loop calls it after every health check of an
endpoint. It updates the endpoint's two run counters, `NumberOfFailuresInARow` and
`NumberOfSuccessesInARow`. Then it walks the endpoint's alerts in order and decides
for each one whether to trigger it, resolve it, or leave it alone. A trigger counts only
if the alert's notification provider accepts the notification. A resolution counts
whether or not its notification goes out.

The implementation file is not part of this model. The behaviour is taken from what
`watchdog/alerting_test.go` asserts, together with the system's design description.

Files:

- `alert_policy.dfy` (module `AlertPolicy`) holds the decision logic as values and
  pure functions. `Record` is the counter update. `Decide` is one alert's step: its
  new `Triggered` flag and the `Send` call made on the way. `Step` and `Run` cover one
  alert over a sequence of calls. The lemmas state the trigger/resolve state machine
  over single steps and over whole traces.
- `watchdog.dfy` (module `Watchdog`) holds the imperative form. `Endpoint` and
  `Alert` are classes whose fields are updated in place. `Result` and
  `AlertingConfig` are classes so that a nil argument can be passed. `HandleAlerting`
  updates the counters. `ProcessAlerts` loops over the `array<Alert>`. Each postcondition
  ties the new state to `Record`/`Decide` of the old state.
- `alerting_scenarios.dfy` (module `AlertingScenarios`) replays every call sequence of
  the test file. After each call an assertion checks what the test's `verify` helper
  checks. Each method's postcondition fixes the final counters, the final flag, and the
  list of `Send` calls made.

Modelling choices:

- The 13 provider types matter only through one question: does the alerting
  configuration hold a provider for this type? So `AlertingConfig` is the set of
  configured types.
- The provider's outcome is one `providerErrors` flag per call. The tests drive it
  through the `MOCK_ALERT_PROVIDER_ERROR` environment variable, which holds for the
  whole call.
- An alert with no configured provider makes no `Send` call and never triggers.
- `HandleAlerting` returns one `Dispatch` per alert index: `Quiet`, `Notify(false)`
  for a trigger or `Notify(true)` for a resolution. The Go function returns nothing;
  this result records the calls it makes to providers.
- The same alert object may appear twice in an endpoint's list. Its second entry then
  sees the state its first entry left. Because `Decide` is idempotent
  (`DecideIdempotent`), every alert still ends in `Decide` of its old state.
- Thresholds are `nat`. `NoTriggeredAlertPastRecovery` needs a positive success
  threshold, as the configuration guarantees.

Where the design description and the tests disagree, the model follows the tests:

- The design's list of testable properties says a trigger happens when the failure run
  equals `failureThreshold` exactly. The test at `watchdog/alerting_test.go:444-446`
  triggers at run 5 with threshold 2, once the provider stops erroring. The model
  triggers whenever the run is at or past the threshold.
- The design says `HandleAlerting` is a no-op when the endpoint, the result or the
  configuration is absent. The tests only pass all three as nil (line 78). The model
  takes the design's reading: any one of them absent makes the call a no-op.

## Model

| member | source | states |
|---|---|---|
| `Watchdog.HandleAlerting` | watchdog/alerting_test.go:56-72 | With any input nil, nothing changes and nothing is sent. Otherwise the counters become `Record` of the old counters, so the matching run grows by one and the other is reset to zero. Every alert ends in `Step` of its old state. Each alert's `Send` call is the one `Decide` prescribes for the state it saw. |
| `Watchdog.ProcessAlerts` | watchdog/alerting_test.go:44-72 | Each alert of the array ends with `Triggered` equal to `Decide` of its old flag, even when an alert object is listed twice. The call made for index k follows from the state that entry saw. |
| `Watchdog.Endpoint.constructor` | watchdog/alerting_test.go:122-135 | An endpoint with the given alerts, in order, and the given seeded counters. |
| `Watchdog.Alert.constructor` | watchdog/alerting_test.go:125-132 | An alert with the given configuration and seeded `Triggered` flag. |
| `Watchdog.Result.constructor` | watchdog/alerting_test.go:57 | A result carrying the given success flag. |
| `Watchdog.AlertingConfig.constructor` | watchdog/alerting_test.go:31-40 | A configuration whose providers are exactly the given alert types. |
| `AlertPolicy.TriggerGuard` | watchdog/alerting_test.go:436-446 | An untriggered alert triggers if and only if all of these hold: it is enabled, the result failed, the failure run is at or past the threshold, a provider is configured, and the provider accepts the notification. |
| `AlertPolicy.ResolveGuard` | watchdog/alerting_test.go:447-451 | A triggered alert resolves if and only if it is enabled, the result succeeded and the success run is at or past the threshold. The provider's configuration and errors have no say. |
| `AlertPolicy.DispatchGuard` | watchdog/alerting_test.go:142-175 | A trigger `Send` happens exactly when an untriggered enabled alert reaches its failure threshold with a provider configured. A resolution `Send` happens exactly when a triggered enabled alert reaches its success threshold with `sendOnResolved` set and a provider configured. |
| `AlertPolicy.DecideIdempotent` | watchdog/alerting_test.go:131-139 | Deciding again against the same counters leaves `Triggered` as the first decision left it. A committed trigger is not repeated. |
| `AlertPolicy.RunCounters` | watchdog/alerting_test.go:57-72 | After any trace, each counter is the length of the trailing run of that outcome. The seeded counter is added when the whole trace continued its run. |
| `AlertPolicy.OneRunAfterEveryCheck` | watchdog/alerting_test.go:562-568 | After at least one call, exactly one counter is nonzero. It is the success counter exactly when the last result succeeded. |
| `AlertPolicy.FailureRunGrows` | watchdog/alerting_test.go:57-64 | Over a trace of failures, the failure counter grows by the length of the trace. |
| `AlertPolicy.SuccessRunGrows` | watchdog/alerting_test.go:65-72 | Over a trace of successes, the success counter grows by the length of the trace. |
| `AlertPolicy.IdleBelowFailureThreshold` | watchdog/alerting_test.go:56-58 | An untriggered alert stays untriggered while the failure run stays below `FailureThreshold`. |
| `AlertPolicy.TriggersOnAcceptedDelivery` | watchdog/alerting_test.go:444-446 | Take a failure run at or past the threshold whose last call is accepted by a configured provider. The alert ends triggered, whatever the provider did before. |
| `AlertPolicy.FailuresKeepTriggered` | watchdog/alerting_test.go:61-64 | A triggered alert stays triggered through any run of failures. |
| `AlertPolicy.UndeliverableNeverTriggers` | watchdog/alerting_test.go:81-104 | Suppose no failing call can deliver, because no provider is configured or the provider errors on each one. Then an untriggered alert never triggers, however long the failure run. |
| `AlertPolicy.TriggeredBelowSuccessThreshold` | watchdog/alerting_test.go:65-68 | A triggered alert stays triggered while the success run is below `SuccessThreshold`. |
| `AlertPolicy.ResolvesAtSuccessThreshold` | watchdog/alerting_test.go:449-451 | A success run that reaches the threshold leaves an enabled alert untriggered. This holds for any provider configuration, any provider error and any `sendOnResolved`. |
| `AlertPolicy.SuccessesNeverTrigger` | watchdog/alerting_test.go:69-72 | An untriggered alert stays untriggered through any run of successes. |
| `AlertPolicy.TriggeredOnlyByAcceptedDelivery` | watchdog/alerting_test.go:436-446 | An alert that starts untriggered and ends triggered is enabled and has a configured provider. Some failing call in the trace had its run at the threshold and its notification accepted. |
| `AlertPolicy.ResolvedOnlyAtSuccessThreshold` | watchdog/alerting_test.go:65-72 | An alert that starts triggered and ends untriggered is enabled. Some successful call in the trace had its success run at the threshold. |
| `AlertPolicy.DisabledAlertFrozen` | watchdog/alerting_test.go:47 | A disabled alert keeps its `Triggered` flag across any trace. |
| `AlertPolicy.NoTriggeredAlertPastRecovery` | watchdog/alerting_test.go:65-72 | Consider an enabled alert with a positive success threshold, after at least one call. If it is triggered, its success run is below the threshold. |
| `AlertingScenarios.ThresholdTrace` | watchdog/alerting_test.go:27-73 | Thresholds 2/3: not triggered at (1,0), triggered at (2,0) through (0,2), resolved at (0,3), still resolved at (0,4). One trigger `Send` and one resolution `Send` are made. |
| `AlertingScenarios.NilInputsTrace` | watchdog/alerting_test.go:75-79 | `HandleAlerting(nil, nil, nil)` completes and sends nothing. |
| `AlertingScenarios.MissingProviderTrace` | watchdog/alerting_test.go:81-105 | With no provider configured, the counters reach (2,0), the alert stays untriggered and no `Send` is made. |
| `AlertingScenarios.AlreadyTriggeredTrace` | watchdog/alerting_test.go:107-140 | A pre-triggered alert with one failure seeded ends at (2,0), still triggered, and nothing is sent again. |
| `AlertingScenarios.SilentResolutionTrace` | watchdog/alerting_test.go:142-175 | With `sendOnResolved` false, one success resolves the alert at (0,1) and no `Send` is made. |
| `AlertingScenarios.TriggerAndResolveTrace` | watchdog/alerting_test.go:177-248 | For any provider type, thresholds 1/1: one failure triggers at (1,0), one success resolves at (0,1). |
| `AlertingScenarios.ProviderErrorTrace` | watchdog/alerting_test.go:420-464 | For any provider type: while the provider errors, the alert stays untriggered from (1,0) to (4,0), with a trigger `Send` tried on each call from the second. The first call after the errors stop triggers it at (5,0). The resolution at (0,2) commits while the provider errors. The alert then triggers at (2,0) and resolves at (0,2) as usual. |
| `AlertingScenarios.ResolveErrorTrace` | watchdog/alerting_test.go:468-519 | A provider that errors only during resolutions: each resolution still commits, and triggers keep working between them. |

## Left out

- The concrete notification providers (custom, discord, email, pagerduty, slack, twilio and the rest) are network clients. The model keeps only "is a provider configured for this type" and one error flag per call.
- Provider settings (URLs, tokens, ports) and every other part of the configuration are opaque to the decision and are not modelled.
- The environment-variable mocking of providers in the tests is replaced by the explicit `providerErrors` parameter.
- Minimum repeat interval: re-sending "still failing" notifications while an alert stays triggered, and the alert's last-notified timestamp, are not modelled. Its only test, `watchdog/alerting_test.go:521-560`, is written against an older API (`core.Endpoint`, a four-argument `HandleAlerting`). Its assertions repeat the trace of `ThresholdTrace`. A triggered alert therefore never sends again in this model.
- Logging, wall-clock time, and the scheduler's concurrency are not modelled. `HandleAlerting` is treated as the only writer of an endpoint during a call.
- Go's fixed-width `int` counters are modelled as unbounded `nat`. Overflow would need about 2^63 consecutive checks.
- The validation that makes thresholds positive belongs to configuration loading and is not part of this model. `NoTriggeredAlertPastRecovery` assumes a positive threshold instead.
