/** The decision logic of the watchdog's HandleAlerting for one alert, as values and
    functions: how a check result moves an endpoint's consecutive-outcome counters, and
    how an alert's Triggered flag and its notification follow from them. The imperative
    loop over an endpoint's alerts (module Watchdog) is specified by these functions. */
module AlertPolicy {

  /** The notification backends an alert can name. Only whether the alerting
      configuration holds a provider for the type matters to the decision. */
  datatype AlertType =
    | Custom | Discord | Email | JetBrainsSpace | Matrix | Mattermost | Messagebird
    | PagerDuty | Pushover | Slack | Teams | Telegram | Twilio

  /** The configured part of an alert; HandleAlerting never changes it. */
  datatype AlertRule = AlertRule(
    alertType: AlertType,
    enabled: bool,
    failureThreshold: nat,
    successThreshold: nat,
    sendOnResolved: bool)

  /** NumberOfFailuresInARow and NumberOfSuccessesInARow of an endpoint. */
  datatype Counters = Counters(failures: nat, successes: nat)

  /** What processing one alert asks of its provider: nothing, or one Send call,
      with resolved = false for a trigger and resolved = true for a resolution. */
  datatype Dispatch = Quiet | Notify(resolved: bool)

  /** The alert's Triggered flag after processing, and the Send call made on the way. */
  datatype Decision = Decision(triggered: bool, dispatch: Dispatch)

  /** The counter update every handled result performs before any alert is looked at. */
  function Record(c: Counters, success: bool): Counters
  {
    if success then Counters(0, c.successes + 1) else Counters(c.failures + 1, 0)
  }

  /** One alert's step. `c` holds the counters already updated for this result,
      `configured` says whether the alerting configuration has a provider for the
      alert's type, and `providerErrors` whether that provider's Send reports an error.
      A trigger commits only when Send is reached and succeeds; a resolution commits
      whatever happens to its notification. */
  function Decide(rule: AlertRule, triggered: bool, success: bool, c: Counters,
                  configured: bool, providerErrors: bool): Decision
  {
    if !rule.enabled then Decision(triggered, Quiet)
    else if success then
      if !triggered || c.successes < rule.successThreshold then Decision(triggered, Quiet)
      else Decision(false, if rule.sendOnResolved && configured then Notify(true) else Quiet)
    else if c.failures < rule.failureThreshold || triggered then Decision(triggered, Quiet)
    else if !configured then Decision(false, Quiet)
    else Decision(!providerErrors, Notify(false))
  }

  /** An untriggered alert becomes triggered exactly when it is enabled, the result
      failed, the failure run has reached the threshold, a provider is configured for
      its type and that provider accepts the notification. */
  lemma TriggerGuard(rule: AlertRule, success: bool, c: Counters, configured: bool, providerErrors: bool)
    ensures Decide(rule, false, success, c, configured, providerErrors).triggered
        <==> rule.enabled && !success && c.failures >= rule.failureThreshold
             && configured && !providerErrors
  {
  }

  /** A triggered alert stops being triggered exactly when it is enabled, the result
      succeeded and the success run has reached the threshold; neither the provider
      nor sendOnResolved has any say. */
  lemma ResolveGuard(rule: AlertRule, success: bool, c: Counters, configured: bool, providerErrors: bool)
    ensures !Decide(rule, true, success, c, configured, providerErrors).triggered
        <==> rule.enabled && success && c.successes >= rule.successThreshold
  {
  }

  /** Send is called for a trigger exactly when an untriggered enabled alert reaches its
      failure threshold with a provider configured, and for a resolution exactly when a
      triggered enabled alert reaches its success threshold, sendOnResolved is set and a
      provider is configured. No other call reaches a provider. */
  lemma DispatchGuard(rule: AlertRule, triggered: bool, success: bool, c: Counters,
                      configured: bool, providerErrors: bool)
    ensures Decide(rule, triggered, success, c, configured, providerErrors).dispatch == Notify(false)
        <==> rule.enabled && !triggered && !success && c.failures >= rule.failureThreshold && configured
    ensures Decide(rule, triggered, success, c, configured, providerErrors).dispatch == Notify(true)
        <==> rule.enabled && triggered && success && c.successes >= rule.successThreshold
             && rule.sendOnResolved && configured
  {
  }

  /** Processing an alert a second time against the same counters changes nothing more:
      a trigger that committed is not repeated and a resolved alert stays resolved. */
  lemma DecideIdempotent(rule: AlertRule, triggered: bool, success: bool, c: Counters,
                         configured: bool, providerErrors: bool)
    ensures var once := Decide(rule, triggered, success, c, configured, providerErrors).triggered;
            Decide(rule, once, success, c, configured, providerErrors).triggered == once
  {
  }

  // ---------------------------------------------------------------------------------
  // One alert of one endpoint over a sequence of HandleAlerting calls
  // ---------------------------------------------------------------------------------

  /** The inputs of one HandleAlerting call that the alert's state depends on. */
  datatype Check = Check(success: bool, providerErrors: bool)

  /** The endpoint's counters together with one alert's Triggered flag. */
  datatype AlertState = AlertState(counters: Counters, triggered: bool)

  /** The effect of one HandleAlerting call on the counters and on one alert. */
  function Step(rule: AlertRule, configured: bool, s: AlertState, check: Check): AlertState
  {
    var counters := Record(s.counters, check.success);
    AlertState(counters,
      Decide(rule, s.triggered, check.success, counters, configured, check.providerErrors).triggered)
  }

  /** The state after handling `checks` in order, starting from `s`. */
  function Run(rule: AlertRule, configured: bool, s: AlertState, checks: seq<Check>): AlertState
    decreases |checks|
  {
    if checks == [] then s
    else Step(rule, configured, Run(rule, configured, s, checks[..|checks| - 1]), checks[|checks| - 1])
  }

  predicate AllOutcomes(checks: seq<Check>, success: bool)
  {
    forall i :: 0 <= i < |checks| ==> checks[i].success == success
  }

  /** Reference definition of a run counter: the length of the longest suffix of
      `checks` whose results all have the given outcome. */
  function TrailingRun(checks: seq<Check>, success: bool): nat
    decreases |checks|
  {
    if checks == [] then 0
    else if checks[|checks| - 1].success == success then TrailingRun(checks[..|checks| - 1], success) + 1
    else 0
  }

  lemma AllOutcomesSnoc(checks: seq<Check>, success: bool)
    requires checks != []
    ensures AllOutcomes(checks, success)
        <==> AllOutcomes(checks[..|checks| - 1], success) && checks[|checks| - 1].success == success
  {
  }

  lemma {:induction false} TrailingRunOfUniform(checks: seq<Check>, success: bool)
    requires AllOutcomes(checks, success)
    ensures TrailingRun(checks, success) == |checks|
    decreases |checks|
  {
    if checks != [] {
      AllOutcomesSnoc(checks, success);
      TrailingRunOfUniform(checks[..|checks| - 1], success);
    }
  }

  /** The counters are the lengths of the trailing failure and success runs of the
      checks handled, plus the starting counter when every check continued its run. */
  lemma {:induction false} RunCounters(rule: AlertRule, configured: bool, s: AlertState, checks: seq<Check>)
    ensures Run(rule, configured, s, checks).counters
         == Counters(TrailingRun(checks, false) + (if AllOutcomes(checks, false) then s.counters.failures else 0),
                     TrailingRun(checks, true) + (if AllOutcomes(checks, true) then s.counters.successes else 0))
    decreases |checks|
  {
    if checks != [] {
      RunCounters(rule, configured, s, checks[..|checks| - 1]);
      AllOutcomesSnoc(checks, false);
      AllOutcomesSnoc(checks, true);
    }
  }

  /** After at least one check, exactly one counter is nonzero: the one matching the
      outcome of the last check. */
  lemma OneRunAfterEveryCheck(rule: AlertRule, configured: bool, s: AlertState, checks: seq<Check>)
    requires checks != []
    ensures var c := Run(rule, configured, s, checks).counters;
            (c.failures == 0) != (c.successes == 0)
            && (c.successes > 0 <==> checks[|checks| - 1].success)
  {
  }

  /** Each failure in an all-failure trace adds one to the failure run (and each success
      in an all-success trace one to the success run). */
  lemma FailureRunGrows(rule: AlertRule, configured: bool, s: AlertState, checks: seq<Check>)
    requires AllOutcomes(checks, false)
    ensures Run(rule, configured, s, checks).counters.failures == s.counters.failures + |checks|
  {
    RunCounters(rule, configured, s, checks);
    TrailingRunOfUniform(checks, false);
  }

  lemma SuccessRunGrows(rule: AlertRule, configured: bool, s: AlertState, checks: seq<Check>)
    requires AllOutcomes(checks, true)
    ensures Run(rule, configured, s, checks).counters.successes == s.counters.successes + |checks|
  {
    RunCounters(rule, configured, s, checks);
    TrailingRunOfUniform(checks, true);
  }

  /** An untriggered alert stays untriggered while its failure run is below the
      failure threshold. */
  lemma {:induction false} IdleBelowFailureThreshold(rule: AlertRule, configured: bool, s: AlertState, checks: seq<Check>)
    requires !s.triggered && AllOutcomes(checks, false)
    requires s.counters.failures + |checks| < rule.failureThreshold
    ensures !Run(rule, configured, s, checks).triggered
    decreases |checks|
  {
    if checks != [] {
      var p := checks[..|checks| - 1];
      AllOutcomesSnoc(checks, false);
      IdleBelowFailureThreshold(rule, configured, s, p);
      FailureRunGrows(rule, configured, s, p);
    }
  }

  /** A run of failures that reaches the failure threshold and ends with a call whose
      notification is accepted leaves an enabled alert with a configured provider
      triggered, whatever the provider did on the calls before. */
  lemma TriggersOnAcceptedDelivery(rule: AlertRule, s: AlertState, checks: seq<Check>)
    requires rule.enabled && checks != [] && AllOutcomes(checks, false)
    requires !checks[|checks| - 1].providerErrors
    requires s.counters.failures + |checks| >= rule.failureThreshold
    ensures Run(rule, true, s, checks).triggered
  {
    FailureRunGrows(rule, true, s, checks);
  }

  /** A triggered alert stays triggered through any run of failures: crossing the
      failure threshold again triggers nothing new. */
  lemma {:induction false} FailuresKeepTriggered(rule: AlertRule, configured: bool, s: AlertState, checks: seq<Check>)
    requires s.triggered && AllOutcomes(checks, false)
    ensures Run(rule, configured, s, checks).triggered
    decreases |checks|
  {
    if checks != [] {
      AllOutcomesSnoc(checks, false);
      FailuresKeepTriggered(rule, configured, s, checks[..|checks| - 1]);
    }
  }

  /** When no failing call can deliver a notification (no provider configured, or the
      provider errors on every one of them), an untriggered alert never triggers,
      however far the failure run goes past the threshold. */
  lemma {:induction false} UndeliverableNeverTriggers(rule: AlertRule, configured: bool, s: AlertState, checks: seq<Check>)
    requires !s.triggered
    requires forall i :: 0 <= i < |checks| && !checks[i].success ==> !configured || checks[i].providerErrors
    ensures !Run(rule, configured, s, checks).triggered
    decreases |checks|
  {
    if checks != [] {
      var p := checks[..|checks| - 1];
      forall i | 0 <= i < |p| && !p[i].success ensures !configured || p[i].providerErrors {
        assert p[i] == checks[i];
      }
      UndeliverableNeverTriggers(rule, configured, s, p);
    }
  }

  /** A triggered alert stays triggered while its success run is below the success
      threshold. */
  lemma {:induction false} TriggeredBelowSuccessThreshold(rule: AlertRule, configured: bool, s: AlertState, checks: seq<Check>)
    requires s.triggered && AllOutcomes(checks, true)
    requires s.counters.successes + |checks| < rule.successThreshold
    ensures Run(rule, configured, s, checks).triggered
    decreases |checks|
  {
    if checks != [] {
      var p := checks[..|checks| - 1];
      AllOutcomesSnoc(checks, true);
      TriggeredBelowSuccessThreshold(rule, configured, s, p);
      SuccessRunGrows(rule, configured, s, p);
    }
  }

  /** A run of successes that reaches the success threshold leaves an enabled alert
      untriggered, whether or not the resolution is sent and whether or not the
      provider errors. */
  lemma ResolvesAtSuccessThreshold(rule: AlertRule, configured: bool, s: AlertState, checks: seq<Check>)
    requires rule.enabled && checks != [] && AllOutcomes(checks, true)
    requires s.counters.successes + |checks| >= rule.successThreshold
    ensures !Run(rule, configured, s, checks).triggered
  {
    SuccessRunGrows(rule, configured, s, checks);
  }

  /** Successes never trigger an alert: an untriggered alert stays untriggered
      through any run of successes. */
  lemma {:induction false} SuccessesNeverTrigger(rule: AlertRule, configured: bool, s: AlertState, checks: seq<Check>)
    requires !s.triggered && AllOutcomes(checks, true)
    ensures !Run(rule, configured, s, checks).triggered
    decreases |checks|
  {
    if checks != [] {
      AllOutcomesSnoc(checks, true);
      SuccessesNeverTrigger(rule, configured, s, checks[..|checks| - 1]);
    }
  }

  /** An alert that ends a trace triggered after starting it untriggered was triggered
      by some failing call whose failure run had reached the threshold, on a configured
      provider that accepted the notification. */
  lemma {:induction false} TriggeredOnlyByAcceptedDelivery(rule: AlertRule, configured: bool, s: AlertState, checks: seq<Check>)
    requires !s.triggered && Run(rule, configured, s, checks).triggered
    ensures rule.enabled && configured
    ensures exists i :: 0 <= i < |checks| && !checks[i].success && !checks[i].providerErrors
                        && Run(rule, configured, s, checks[..i + 1]).counters.failures >= rule.failureThreshold
    decreases |checks|
  {
    var n := |checks|;
    assert n > 0;
    var p := checks[..n - 1];
    assert checks[..n] == checks;
    if Run(rule, configured, s, p).triggered {
      TriggeredOnlyByAcceptedDelivery(rule, configured, s, p);
      var i :| 0 <= i < |p| && !p[i].success && !p[i].providerErrors
               && Run(rule, configured, s, p[..i + 1]).counters.failures >= rule.failureThreshold;
      assert p[..i + 1] == checks[..i + 1];
      assert checks[i] == p[i];
    } else {
      assert !checks[n - 1].success && !checks[n - 1].providerErrors
             && Run(rule, configured, s, checks[..n]).counters.failures >= rule.failureThreshold;
    }
  }

  /** A triggered alert that ends a trace untriggered was resolved by some successful
      call whose success run had reached the success threshold. */
  lemma {:induction false} ResolvedOnlyAtSuccessThreshold(rule: AlertRule, configured: bool, s: AlertState, checks: seq<Check>)
    requires s.triggered && !Run(rule, configured, s, checks).triggered
    ensures rule.enabled
    ensures exists i :: 0 <= i < |checks| && checks[i].success
                        && Run(rule, configured, s, checks[..i + 1]).counters.successes >= rule.successThreshold
    decreases |checks|
  {
    var n := |checks|;
    assert n > 0;
    var p := checks[..n - 1];
    assert checks[..n] == checks;
    if !Run(rule, configured, s, p).triggered {
      ResolvedOnlyAtSuccessThreshold(rule, configured, s, p);
      var i :| 0 <= i < |p| && p[i].success
               && Run(rule, configured, s, p[..i + 1]).counters.successes >= rule.successThreshold;
      assert p[..i + 1] == checks[..i + 1];
      assert checks[i] == p[i];
    } else {
      assert checks[n - 1].success
             && Run(rule, configured, s, checks[..n]).counters.successes >= rule.successThreshold;
    }
  }

  /** A disabled alert keeps its Triggered flag across any trace; the counters still
      move, since they belong to the endpoint. */
  lemma {:induction false} DisabledAlertFrozen(rule: AlertRule, configured: bool, s: AlertState, checks: seq<Check>)
    requires !rule.enabled
    ensures Run(rule, configured, s, checks).triggered == s.triggered
    decreases |checks|
  {
    if checks != [] {
      DisabledAlertFrozen(rule, configured, s, checks[..|checks| - 1]);
    }
  }

  /** After at least one check, an enabled alert with a positive success threshold is
      never left triggered with its success run at or past that threshold. */
  lemma NoTriggeredAlertPastRecovery(rule: AlertRule, configured: bool, s: AlertState, checks: seq<Check>)
    requires rule.enabled && rule.successThreshold > 0 && checks != []
    ensures var t := Run(rule, configured, s, checks);
            t.triggered ==> t.counters.successes < rule.successThreshold
  {
  }
}
