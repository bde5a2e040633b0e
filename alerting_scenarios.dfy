/** The call sequences of the watchdog's alerting tests, replayed on the model. After
    every HandleAlerting call an assertion checks what the test's verify helper checks;
    each method returns the final counters and Triggered flag (and the Send calls made
    along the way), and its postcondition pins them down. */
module AlertingScenarios {
  import opened AlertPolicy
  import opened Watchdog

  /** What the tests' verify helper compares: both counters of the endpoint and the
      Triggered flag of its first alert, passed here as `alert`. */
  predicate Shows(ep: Endpoint, alert: Alert, failures: nat, successes: nat, triggered: bool)
    reads ep, alert
  {
    ep.numberOfFailuresInARow == failures && ep.numberOfSuccessesInARow == successes
    && alert.triggered == triggered
  }

  /** HandleAlerting on an endpoint with a single alert, stated for that alert. */
  method HandleOne(ep: Endpoint, alert: Alert, result: Result, config: AlertingConfig, providerErrors: bool)
    returns (d: Dispatch)
    requires ep.alerts.Length == 1 && ep.alerts[0] == alert
    modifies ep, alert
    ensures ep.Counts() == Record(old(ep.Counts()), result.success)
    ensures Decision(alert.triggered, d)
         == Decide(alert.rule, old(alert.triggered), result.success, ep.Counts(),
                   config.HasProvider(alert.rule.alertType), providerErrors)
  {
    var sent := HandleAlerting(ep, result, config, providerErrors);
    assert ep.alerts[..0] == [];
    d := sent[0];
  }

  /** Thresholds 2 and 3: triggers on the second failure, stays triggered through the
      fourth and through two successes, resolves on the third success. */
  method ThresholdTrace() returns (failures: nat, successes: nat, triggered: bool, sent: seq<Dispatch>)
    ensures failures == 0 && successes == 4 && !triggered
    ensures sent == [Quiet, Notify(false), Quiet, Quiet, Quiet, Quiet, Notify(true), Quiet]
  {
    var config := new AlertingConfig({Custom});
    var alert := new Alert(AlertRule(Custom, true, 2, 3, true), false);
    var ep := new Endpoint([alert], 0, 0);
    assert ep.alerts[0] == ep.alerts[..][0];
    var fail := new Result(false);
    var pass := new Result(true);
    assert Shows(ep, alert, 0, 0, false);
    var d1 := HandleOne(ep, alert, fail, config, false);
    assert Shows(ep, alert, 1, 0, false);
    var d2 := HandleOne(ep, alert, fail, config, false);
    assert Shows(ep, alert, 2, 0, true);
    var d3 := HandleOne(ep, alert, fail, config, false);
    assert Shows(ep, alert, 3, 0, true);
    var d4 := HandleOne(ep, alert, fail, config, false);
    assert Shows(ep, alert, 4, 0, true);
    var d5 := HandleOne(ep, alert, pass, config, false);
    assert Shows(ep, alert, 0, 1, true);
    var d6 := HandleOne(ep, alert, pass, config, false);
    assert Shows(ep, alert, 0, 2, true);
    var d7 := HandleOne(ep, alert, pass, config, false);
    assert Shows(ep, alert, 0, 3, false);
    var d8 := HandleOne(ep, alert, pass, config, false);
    sent := [d1, d2, d3, d4, d5, d6, d7, d8];
    failures, successes, triggered := ep.numberOfFailuresInARow, ep.numberOfSuccessesInARow, alert.triggered;
  }

  /** With nothing to work on, HandleAlerting does nothing and sends nothing. */
  method NilInputsTrace() returns (sent: seq<Dispatch>)
    ensures sent == []
  {
    sent := HandleAlerting(null, null, null, false);
  }

  /** An alerting configuration without a provider for the alert's type: the counters
      move, but the alert never triggers and no Send call is made. */
  method MissingProviderTrace() returns (failures: nat, successes: nat, triggered: bool, sent: seq<Dispatch>)
    ensures failures == 2 && successes == 0 && !triggered
    ensures sent == [Quiet, Quiet]
  {
    var config := new AlertingConfig({});
    var alert := new Alert(AlertRule(Custom, true, 1, 1, true), false);
    var ep := new Endpoint([alert], 0, 0);
    assert ep.alerts[0] == ep.alerts[..][0];
    var fail := new Result(false);
    assert Shows(ep, alert, 0, 0, false);
    var d1 := HandleOne(ep, alert, fail, config, false);
    assert Shows(ep, alert, 1, 0, false);
    var d2 := HandleOne(ep, alert, fail, config, false);
    sent := [d1, d2];
    failures, successes, triggered := ep.numberOfFailuresInARow, ep.numberOfSuccessesInARow, alert.triggered;
  }

  /** An alert seeded as triggered, with one failure already counted: the failure that
      brings the run to the threshold leaves it triggered and sends nothing again. */
  method AlreadyTriggeredTrace() returns (failures: nat, successes: nat, triggered: bool, sent: seq<Dispatch>)
    ensures failures == 2 && successes == 0 && triggered
    ensures sent == [Quiet]
  {
    var config := new AlertingConfig({Custom});
    var alert := new Alert(AlertRule(Custom, true, 2, 3, true), true);
    var ep := new Endpoint([alert], 1, 0);
    assert ep.alerts[0] == ep.alerts[..][0];
    var fail := new Result(false);
    var d1 := HandleOne(ep, alert, fail, config, false);
    sent := [d1];
    failures, successes, triggered := ep.numberOfFailuresInARow, ep.numberOfSuccessesInARow, alert.triggered;
  }

  /** sendOnResolved is false: the alert resolves and no resolution is sent. */
  method SilentResolutionTrace() returns (failures: nat, successes: nat, triggered: bool, sent: seq<Dispatch>)
    ensures failures == 0 && successes == 1 && !triggered
    ensures sent == [Quiet]
  {
    var config := new AlertingConfig({Custom});
    var alert := new Alert(AlertRule(Custom, true, 1, 1, false), true);
    var ep := new Endpoint([alert], 1, 0);
    assert ep.alerts[0] == ep.alerts[..][0];
    var pass := new Result(true);
    var d1 := HandleOne(ep, alert, pass, config, false);
    sent := [d1];
    failures, successes, triggered := ep.numberOfFailuresInARow, ep.numberOfSuccessesInARow, alert.triggered;
  }

  /** Thresholds 1 and 1 with a configured provider of type `t`: one failure triggers,
      one success resolves. */
  method TriggerAndResolveTrace(t: AlertType) returns (failures: nat, successes: nat, triggered: bool, sent: seq<Dispatch>)
    ensures failures == 0 && successes == 1 && !triggered
    ensures sent == [Notify(false), Notify(true)]
  {
    var config := new AlertingConfig({t});
    var alert := new Alert(AlertRule(t, true, 1, 1, true), false);
    var ep := new Endpoint([alert], 0, 0);
    assert ep.alerts[0] == ep.alerts[..][0];
    var fail := new Result(false);
    var pass := new Result(true);
    var d1 := HandleOne(ep, alert, fail, config, false);
    assert Shows(ep, alert, 1, 0, true);
    var d2 := HandleOne(ep, alert, pass, config, false);
    sent := [d1, d2];
    failures, successes, triggered := ep.numberOfFailuresInARow, ep.numberOfSuccessesInARow, alert.triggered;
  }

  /** A provider of type `t` that errors: every failing call past the threshold retries
      the trigger and fails to commit it; the first call after the errors stop commits
      it. The resolution commits while the provider errors again, and afterwards the
      alert triggers and resolves as usual. */
  method ProviderErrorTrace(t: AlertType) returns (failures: nat, successes: nat, triggered: bool, sent: seq<Dispatch>)
    ensures failures == 0 && successes == 2 && !triggered
    ensures sent == [Quiet, Notify(false), Notify(false), Notify(false), Notify(false), Quiet, Notify(true),
                     Quiet, Notify(false), Quiet, Notify(true)]
  {
    var config := new AlertingConfig({t});
    var alert := new Alert(AlertRule(t, true, 2, 2, true), false);
    var ep := new Endpoint([alert], 0, 0);
    assert ep.alerts[0] == ep.alerts[..][0];
    var fail := new Result(false);
    var pass := new Result(true);
    var d1 := HandleOne(ep, alert, fail, config, true);
    assert Shows(ep, alert, 1, 0, false);
    var d2 := HandleOne(ep, alert, fail, config, true);
    assert Shows(ep, alert, 2, 0, false);
    var d3 := HandleOne(ep, alert, fail, config, true);
    assert Shows(ep, alert, 3, 0, false);
    var d4 := HandleOne(ep, alert, fail, config, true);
    assert Shows(ep, alert, 4, 0, false);
    var d5 := HandleOne(ep, alert, fail, config, false);
    assert Shows(ep, alert, 5, 0, true);
    var d6 := HandleOne(ep, alert, pass, config, false);
    assert Shows(ep, alert, 0, 1, true);
    var d7 := HandleOne(ep, alert, pass, config, true);
    assert Shows(ep, alert, 0, 2, false);
    var d8 := HandleOne(ep, alert, fail, config, false);
    assert Shows(ep, alert, 1, 0, false);
    var d9 := HandleOne(ep, alert, fail, config, false);
    assert Shows(ep, alert, 2, 0, true);
    var d10 := HandleOne(ep, alert, pass, config, false);
    assert Shows(ep, alert, 0, 1, true);
    var d11 := HandleOne(ep, alert, pass, config, false);
    sent := [d1, d2, d3, d4, d5, d6, d7, d8, d9, d10, d11];
    failures, successes, triggered := ep.numberOfFailuresInARow, ep.numberOfSuccessesInARow, alert.triggered;
  }

  /** A provider that errors only while resolutions are sent: each resolution still
      commits, and triggering keeps working between them. */
  method ResolveErrorTrace() returns (failures: nat, successes: nat, triggered: bool, sent: seq<Dispatch>)
    ensures failures == 0 && successes == 2 && !triggered
    ensures sent == [Notify(false), Notify(true), Notify(false), Notify(true),
                     Notify(false), Quiet, Notify(true), Quiet]
  {
    var config := new AlertingConfig({Custom});
    var alert := new Alert(AlertRule(Custom, true, 1, 1, true), false);
    var ep := new Endpoint([alert], 0, 0);
    assert ep.alerts[0] == ep.alerts[..][0];
    var fail := new Result(false);
    var pass := new Result(true);
    var d1 := HandleOne(ep, alert, fail, config, false);
    assert Shows(ep, alert, 1, 0, true);
    var d2 := HandleOne(ep, alert, pass, config, true);
    assert Shows(ep, alert, 0, 1, false);
    var d3 := HandleOne(ep, alert, fail, config, false);
    assert Shows(ep, alert, 1, 0, true);
    var d4 := HandleOne(ep, alert, pass, config, true);
    assert Shows(ep, alert, 0, 1, false);
    var d5 := HandleOne(ep, alert, fail, config, false);
    assert Shows(ep, alert, 1, 0, true);
    var d6 := HandleOne(ep, alert, fail, config, false);
    assert Shows(ep, alert, 2, 0, true);
    var d7 := HandleOne(ep, alert, pass, config, false);
    assert Shows(ep, alert, 0, 1, false);
    var d8 := HandleOne(ep, alert, pass, config, false);
    sent := [d1, d2, d3, d4, d5, d6, d7, d8];
    failures, successes, triggered := ep.numberOfFailuresInARow, ep.numberOfSuccessesInARow, alert.triggered;
  }
}
