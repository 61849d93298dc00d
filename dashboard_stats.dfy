/**
 * The fleet summary cards: how many machines there are, how many are in
 * each of the three charted states, and how many critical alerts are open.
 */
module DashboardStats {
  import opened JsArray
  import opened Types

  /** The integer figures the cards display. */
  datatype FleetStats = FleetStats(total: nat, active: nat, maintenance: nat, offline: nat, criticalAlerts: nat)

  /** The machines in status `st`, in fleet order. */
  function WithStatus(assets: seq<Asset>, st: AssetStatus): (r: seq<Asset>)
    ensures IsSubsequence(r, assets)
    ensures forall i :: 0 <= i < |r| ==> r[i].status == st && r[i] in assets
    ensures forall i :: 0 <= i < |assets| ==> (assets[i] in r <==> assets[i].status == st)
  {
    Filter(assets, (a: Asset) => a.status == st)
  }

  /** An open critical alert. */
  predicate IsOpenCritical(a: Alert)
  {
    a.severity == CriticalAlert && !a.isResolved
  }

  /** The figures for a fleet and its alerts. */
  function Stats(assets: seq<Asset>, alerts: seq<Alert>): (s: FleetStats)
    ensures s.total == |assets|
    ensures s.active == |WithStatus(assets, Active)|
    ensures s.maintenance == |WithStatus(assets, Maintenance)|
    ensures s.offline == |WithStatus(assets, Offline)|
    ensures s.criticalAlerts == |Filter(alerts, IsOpenCritical)|
    ensures s.criticalAlerts <= |alerts|
    ensures s.criticalAlerts > 0 <==> exists i :: 0 <= i < |alerts| && IsOpenCritical(alerts[i])
  {
    var critical := Filter(alerts, IsOpenCritical);
    FilterNonEmpty(alerts, IsOpenCritical);
    FleetStats(|assets|, |WithStatus(assets, Active)|, |WithStatus(assets, Maintenance)|,
               |WithStatus(assets, Offline)|, |critical|)
  }

  /** Every machine is in exactly one of the five states. */
  lemma {:induction false} StatusPartition(assets: seq<Asset>)
    ensures |WithStatus(assets, Active)| + |WithStatus(assets, Warning)| + |WithStatus(assets, Down)| +
            |WithStatus(assets, Maintenance)| + |WithStatus(assets, Offline)| == |assets|
    decreases |assets|
  {
    if assets != [] {
      StatusPartition(assets[1..]);
    }
  }

  /**
   * The three charted states never add up to more than the fleet; what they
   * miss is exactly the machines in warning or down.
   */
  lemma ChartedWithinTotal(assets: seq<Asset>, alerts: seq<Alert>)
    ensures var s := Stats(assets, alerts);
            s.active + s.maintenance + s.offline <= s.total &&
            s.total - (s.active + s.maintenance + s.offline) ==
              |WithStatus(assets, Warning)| + |WithStatus(assets, Down)|
  {
    StatusPartition(assets);
  }

  /** A fleet with a machine in warning or down charts fewer machines than it has. */
  lemma UnchartedMachineShows(assets: seq<Asset>, alerts: seq<Alert>, i: nat)
    requires i < |assets| && (assets[i].status == Warning || assets[i].status == Down)
    ensures var s := Stats(assets, alerts);
            s.active + s.maintenance + s.offline < s.total
  {
    StatusPartition(assets);
    if assets[i].status == Warning {
      assert assets[i] in WithStatus(assets, Warning);
    } else {
      assert assets[i] in WithStatus(assets, Down);
    }
  }
}
