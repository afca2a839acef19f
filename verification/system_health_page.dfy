/**
 * The system health page (src/app/system-health/page.tsx).
 *
 * Every five seconds, and once on mount, the page draws new metrics at
 * random and, one time in five, a random alert; the alert goes first and the
 * list keeps the five newest. The first update ends the loading state. The
 * CPU and memory gauges turn red above 80 percent, the disk gauge above 90.
 *
 * The random draws (each `Math.random()`, a real in [0, 1)) and the clock
 * are parameters of an update.
 */
module SystemHealthPage {
  import opened Common

  datatype Metrics = Metrics(cpuUsage: real, memoryUsage: real, diskSpace: real, activeUsers: int,
                             responseTime: real)

  datatype Severity = SevError | SevWarning | SevInfo | SevSuccess

  datatype SystemAlert = SystemAlert(severity: Severity, message: string, timestamp: nat)

  /** The random values one update draws, in the order it draws them. */
  datatype Draws = Draws(cpu: real, memory: real, disk: real, users: real, response: real,
                         alertChance: real, severity: real, subject: real)

  /** The most alerts the page keeps. */
  const MaxAlerts := 5

  const InitialMetrics := Metrics(0.0, 0.0, 0.0, 0, 0.0)

  /** The metrics an update sets. */
  function DrawMetrics(d: Draws): Metrics {
    Metrics(d.cpu * 100.0, d.memory * 100.0, d.disk * 100.0, (d.users * 1000.0).Floor, d.response * 1000.0)
  }

  /** The text of an alert about the named resource. */
  function AlertMessage(resource: string): string {
    "System alert: High " + resource + " usage detected"
  }

  /** The alert an update raises, if it raises one. */
  function DrawAlert(d: Draws, now: nat): (a: Option<SystemAlert>)
    ensures a.Some? <==> d.alertChance > 0.8
    ensures a.Some? ==> a.value.severity == SevWarning || a.value.severity == SevError
    ensures a.Some? ==> a.value.message == AlertMessage("CPU") || a.value.message == AlertMessage("Memory")
  {
    if d.alertChance > 0.8 then
      Some(SystemAlert(if d.severity > 0.5 then SevWarning else SevError,
                       AlertMessage(if d.subject > 0.5 then "CPU" else "Memory"),
                       now))
    else None
  }

  /** `[newAlert, ...prev].slice(0, 5)`. */
  function PushAlert(alerts: seq<SystemAlert>, a: SystemAlert): (r: seq<SystemAlert>)
    ensures |r| <= MaxAlerts
  {
    var all := [a] + alerts;
    if |all| <= MaxAlerts then all else all[..MaxAlerts]
  }

  /** The alert list after an update. */
  function UpdateAlerts(alerts: seq<SystemAlert>, d: Draws, now: nat): seq<SystemAlert> {
    var a := DrawAlert(d, now);
    if a.Some? then PushAlert(alerts, a.value) else alerts
  }

  /** A gauge's colour: error above the threshold, primary otherwise. */
  function GaugeColor(value: real, threshold: real): (c: Color)
    ensures c == Error || c == Primary
  {
    if value > threshold then Error else Primary
  }

  function CpuColor(m: Metrics): Color { GaugeColor(m.cpuUsage, 80.0) }

  function MemoryColor(m: Metrics): Color { GaugeColor(m.memoryUsage, 80.0) }

  function DiskColor(m: Metrics): Color { GaugeColor(m.diskSpace, 90.0) }

  /** Every alert was raised by an update. */
  predicate RaisedAlerts(alerts: seq<SystemAlert>) {
    forall i :: 0 <= i < |alerts| ==> alerts[i].severity in {SevWarning, SevError}
  }

  /** The page's state. */
  class SystemHealth {
    var metrics: Metrics
    var alerts: seq<SystemAlert>
    var isLoading: bool

    /** At most five alerts, each a warning or an error. */
    ghost predicate Valid()
      reads this
    {
      |alerts| <= MaxAlerts && RaisedAlerts(alerts)
    }

    constructor ()
      ensures Valid() && metrics == InitialMetrics && alerts == [] && isLoading
    {
      metrics, alerts, isLoading := InitialMetrics, [], true;
    }

    /** `updateMetrics` with its random draws at time `now`. */
    method UpdateMetrics(d: Draws, now: nat)
      requires Valid()
      modifies this
      ensures Valid() && !isLoading
      ensures metrics == DrawMetrics(d) && alerts == UpdateAlerts(old(alerts), d, now)
    {
      metrics := DrawMetrics(d);
      var a := DrawAlert(d, now);
      if a.Some? {
        PushKeepsRaised(alerts, a.value);
        alerts := PushAlert(alerts, a.value);
      }
      isLoading := false;
    }
  }

  // ---------------------------------------------------------------------------
  // Properties

  /**
   * The new alert goes first and the previous first min(4, n) alerts follow
   * it in their order; the rest are dropped.
   */
  lemma PushAlertOrder(alerts: seq<SystemAlert>, a: SystemAlert)
    ensures var r := PushAlert(alerts, a);
            var kept := if |alerts| < MaxAlerts - 1 then |alerts| else MaxAlerts - 1;
            |r| == kept + 1 && r[0] == a && r[1..] == alerts[..kept]
  {
    var all := [a] + alerts;
    assert all[1..] == alerts;
    if |all| > MaxAlerts {
      assert all[..MaxAlerts][1..] == alerts[..MaxAlerts - 1];
    }
  }

  lemma PushKeepsRaised(alerts: seq<SystemAlert>, a: SystemAlert)
    requires RaisedAlerts(alerts) && a.severity in {SevWarning, SevError}
    ensures RaisedAlerts(PushAlert(alerts, a))
  {
    PushAlertOrder(alerts, a);
    var r := PushAlert(alerts, a);
    forall i | 0 <= i < |r| ensures r[i].severity in {SevWarning, SevError} {
      if i > 0 {
        assert r[i] == r[1..][i - 1];
      }
    }
  }

  /** The alerts after a series of updates. */
  function RunAlerts(alerts: seq<SystemAlert>, updates: seq<(Draws, nat)>): seq<SystemAlert>
    decreases |updates|
  {
    if updates == [] then alerts else RunAlerts(UpdateAlerts(alerts, updates[0].0, updates[0].1), updates[1..])
  }

  /** Starting from no alerts, any series of updates leaves at most five, each a warning or an error. */
  lemma {:induction false} RunKeepsAlertsBounded(alerts: seq<SystemAlert>, updates: seq<(Draws, nat)>)
    requires |alerts| <= MaxAlerts && RaisedAlerts(alerts)
    ensures var r := RunAlerts(alerts, updates);
            |r| <= MaxAlerts && RaisedAlerts(r)
    decreases |updates|
  {
    if updates != [] {
      var (d, now) := updates[0];
      var a := DrawAlert(d, now);
      if a.Some? {
        PushKeepsRaised(alerts, a.value);
      }
      RunKeepsAlertsBounded(UpdateAlerts(alerts, d, now), updates[1..]);
    }
  }

  /** The gauges: CPU and memory are red exactly above 80, disk exactly above 90. */
  lemma GaugeThresholds(m: Metrics)
    ensures CpuColor(m) == Error <==> m.cpuUsage > 80.0
    ensures MemoryColor(m) == Error <==> m.memoryUsage > 80.0
    ensures DiskColor(m) == Error <==> m.diskSpace > 90.0
  {
  }

  /** Draws in [0, 1) give percentages in [0, 100), a user count in [0, 999] and a response time in [0, 1000). */
  lemma DrawnMetricsInRange(d: Draws)
    requires 0.0 <= d.cpu < 1.0 && 0.0 <= d.memory < 1.0 && 0.0 <= d.disk < 1.0 && 0.0 <= d.users < 1.0
    requires 0.0 <= d.response < 1.0
    ensures var m := DrawMetrics(d);
            0.0 <= m.cpuUsage < 100.0 && 0.0 <= m.memoryUsage < 100.0 && 0.0 <= m.diskSpace < 100.0 &&
            0 <= m.activeUsers <= 999 && 0.0 <= m.responseTime < 1000.0
  {
  }
}
