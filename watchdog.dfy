/** The watchdog's HandleAlerting over mutable endpoint and alert objects: it updates the
    endpoint's run counters in place, then walks the endpoint's alerts in order and
    updates each alert's Triggered flag, calling the alert's provider when the
    decision asks for it. */
module Watchdog {
  import opened AlertPolicy

  /** An alert attached to an endpoint: its configuration, and the Triggered flag that
      persists across calls. */
  class Alert {
    const rule: AlertRule
    var triggered: bool

    constructor (rule: AlertRule, triggered: bool)
      ensures this.rule == rule && this.triggered == triggered
    {
      this.rule := rule;
      this.triggered := triggered;
    }
  }

  /** The outcome of one health check; only its success flag matters to alerting. */
  class Result {
    const success: bool

    constructor (success: bool)
      ensures this.success == success
    {
      this.success := success;
    }
  }

  /** The alerting configuration, reduced to the alert types that have a provider. */
  class AlertingConfig {
    const providers: set<AlertType>

    constructor (providers: set<AlertType>)
      ensures this.providers == providers
    {
      this.providers := providers;
    }

    predicate HasProvider(t: AlertType)
    {
      t in providers
    }
  }

  /** A monitored endpoint: its two run counters and the alerts attached to it. */
  class Endpoint {
    var numberOfFailuresInARow: nat
    var numberOfSuccessesInARow: nat
    const alerts: array<Alert>

    constructor (alerts: seq<Alert>, failures: nat, successes: nat)
      ensures fresh(this.alerts) && this.alerts[..] == alerts
      ensures numberOfFailuresInARow == failures && numberOfSuccessesInARow == successes
    {
      this.alerts := new Alert[|alerts|](i requires 0 <= i < |alerts| => alerts[i]);
      numberOfFailuresInARow := failures;
      numberOfSuccessesInARow := successes;
    }

    function Counts(): Counters
      reads this
    {
      Counters(numberOfFailuresInARow, numberOfSuccessesInARow)
    }

    /** The objects HandleAlerting may write: the endpoint and its alerts. */
    function Footprint(): set<object>
      reads this, alerts
    {
      {this} + set k | 0 <= k < alerts.Length :: alerts[k]
    }
  }

  /** Handles one check result for an endpoint. A missing endpoint, result or
      configuration makes the call a no-op. `providerErrors` is the outcome every
      provider Send reports during this call. The result lists, per alert index, the
      Send call made while processing that alert. An alert object listed twice is
      processed twice: its second entry sees the state the first one left. */
  method HandleAlerting(ep: Endpoint?, result: Result?, config: AlertingConfig?, providerErrors: bool)
    returns (dispatches: seq<Dispatch>)
    modifies if ep == null then {} else ep.Footprint()
    ensures ep == null || result == null || config == null ==> dispatches == []
    ensures ep != null && (result == null || config == null) ==>
      unchanged(ep) && forall k :: 0 <= k < ep.alerts.Length ==> unchanged(ep.alerts[k])
    ensures ep != null && result != null && config != null ==>
      ep.Counts() == Record(old(ep.Counts()), result.success)
    ensures ep != null && result != null && config != null ==>
      forall k :: 0 <= k < ep.alerts.Length ==>
        AlertState(ep.Counts(), ep.alerts[k].triggered)
        == Step(ep.alerts[k].rule, config.HasProvider(ep.alerts[k].rule.alertType),
                AlertState(old(ep.Counts()), old(ep.alerts[k].triggered)),
                Check(result.success, providerErrors))
    ensures ep != null && result != null && config != null ==>
      |dispatches| == ep.alerts.Length &&
      forall k :: 0 <= k < ep.alerts.Length ==>
        dispatches[k]
        == Decide(ep.alerts[k].rule,
                  if ep.alerts[k] in ep.alerts[..k] then ep.alerts[k].triggered else old(ep.alerts[k].triggered),
                  result.success, ep.Counts(), config.HasProvider(ep.alerts[k].rule.alertType),
                  providerErrors).dispatch
  {
    if ep == null || result == null || config == null {
      return [];
    }
    var success := result.success;
    if success {
      ep.numberOfSuccessesInARow := ep.numberOfSuccessesInARow + 1;
      ep.numberOfFailuresInARow := 0;
    } else {
      ep.numberOfFailuresInARow := ep.numberOfFailuresInARow + 1;
      ep.numberOfSuccessesInARow := 0;
    }
    dispatches := ProcessAlerts(ep.alerts, success, ep.Counts(), config, providerErrors);
  }

  /** The decision HandleAlerting takes for `alert` when it sees Triggered = `triggered`. */
  function DecideFor(alert: Alert, triggered: bool, success: bool, counts: Counters,
                     config: AlertingConfig, providerErrors: bool): Decision
  {
    Decide(alert.rule, triggered, success, counts, config.HasProvider(alert.rule.alertType), providerErrors)
  }

  /** The loop of HandleAlerting: processes `alerts` in order against the counters
      already updated for this result. */
  method ProcessAlerts(alerts: array<Alert>, success: bool, counts: Counters,
                       config: AlertingConfig, providerErrors: bool)
    returns (dispatches: seq<Dispatch>)
    modifies set k | 0 <= k < alerts.Length :: alerts[k]
    ensures |dispatches| == alerts.Length
    ensures forall k :: 0 <= k < alerts.Length ==>
      alerts[k].triggered == DecideFor(alerts[k], old(alerts[k].triggered), success, counts, config, providerErrors).triggered
    ensures forall k :: 0 <= k < alerts.Length ==>
      dispatches[k]
      == DecideFor(alerts[k], if alerts[k] in alerts[..k] then alerts[k].triggered else old(alerts[k].triggered),
                   success, counts, config, providerErrors).dispatch
  {
    dispatches := [];
    var i := 0;
    while i < alerts.Length
      invariant 0 <= i <= alerts.Length
      invariant |dispatches| == i
      invariant forall k :: 0 <= k < alerts.Length ==>
        alerts[k].triggered
        == if alerts[k] in alerts[..i]
           then DecideFor(alerts[k], old(alerts[k].triggered), success, counts, config, providerErrors).triggered
           else old(alerts[k].triggered)
      invariant forall k :: 0 <= k < i ==>
        dispatches[k]
        == DecideFor(alerts[k],
                     if alerts[k] in alerts[..k]
                     then DecideFor(alerts[k], old(alerts[k].triggered), success, counts, config, providerErrors).triggered
                     else old(alerts[k].triggered),
                     success, counts, config, providerErrors).dispatch
    {
      var alert := alerts[i];
      var d := DecideFor(alert, alert.triggered, success, counts, config, providerErrors);
      DecideIdempotent(alert.rule, old(alert.triggered), success, counts,
                       config.HasProvider(alert.rule.alertType), providerErrors);
      assert d.triggered == DecideFor(alert, old(alert.triggered), success, counts, config, providerErrors).triggered;
      assert alerts[..i + 1] == alerts[..i] + [alert];
      label Visit:
      alert.triggered := d.triggered;
      forall k | 0 <= k < alerts.Length
        ensures alerts[k].triggered
             == if alerts[k] in alerts[..i + 1]
                then DecideFor(alerts[k], old(alerts[k].triggered), success, counts, config, providerErrors).triggered
                else old(alerts[k].triggered)
      {
        if alerts[k] != alert {
          assert alerts[k].triggered == old@Visit(alerts[k].triggered);
          assert alerts[k] in alerts[..i + 1] <==> alerts[k] in alerts[..i];
        }
      }
      dispatches := dispatches + [d.dispatch];
      i := i + 1;
    }
    forall k | 0 <= k < alerts.Length
      ensures dispatches[k]
           == DecideFor(alerts[k], if alerts[k] in alerts[..k] then alerts[k].triggered else old(alerts[k].triggered),
                        success, counts, config, providerErrors).dispatch
    {
      assert alerts[k] == alerts[..alerts.Length][k];
    }
    assert alerts[..alerts.Length] == alerts[..];
  }
}
