/**
 * The notification panel: the open alerts, their count, the empty state,
 * and the name of the machine each alert is about.
 */
module NotificationCenter {
  import opened Wrappers
  import opened JsArray
  import opened Types
  import DashboardStats

  predicate IsUnresolved(a: Alert)
  {
    !a.isResolved
  }

  /** The alerts listed: the unresolved ones, in their original order. */
  function ActiveAlerts(alerts: seq<Alert>): (r: seq<Alert>)
    ensures IsSubsequence(r, alerts)
    ensures forall i :: 0 <= i < |r| ==> !r[i].isResolved
    ensures forall i :: 0 <= i < |alerts| ==> (alerts[i] in r <==> !alerts[i].isResolved)
  {
    Filter(alerts, IsUnresolved)
  }

  /** The number in the panel's header. */
  function HeaderCount(alerts: seq<Alert>): (n: nat)
    ensures n <= |alerts|
    ensures n == |ActiveAlerts(alerts)|
  {
    |ActiveAlerts(alerts)|
  }

  /** The "all in order" message replaces the list. */
  predicate ShowsEmptyState(alerts: seq<Alert>)
  {
    |ActiveAlerts(alerts)| == 0
  }

  /** The empty state shows exactly when every alert is resolved. */
  lemma EmptyStateIff(alerts: seq<Alert>)
    ensures ShowsEmptyState(alerts) <==> forall i :: 0 <= i < |alerts| ==> alerts[i].isResolved
  {
    FilterNonEmpty(alerts, IsUnresolved);
  }

  /** Resolving one open alert lowers the count by exactly one. */
  lemma ResolveLowersCount(alerts: seq<Alert>, i: nat)
    requires i < |alerts| && !alerts[i].isResolved
    ensures HeaderCount(alerts[i := alerts[i].(isResolved := true)]) == HeaderCount(alerts) - 1
  {
    var x := alerts[i];
    var a, b := alerts[..i], alerts[i + 1..];
    assert alerts == a + [x] + b;
    assert alerts[i := x.(isResolved := true)] == a + [x.(isResolved := true)] + b;
    FilterConcat(a + [x], b, IsUnresolved);
    FilterConcat(a, [x], IsUnresolved);
    FilterConcat(a + [x.(isResolved := true)], b, IsUnresolved);
    FilterConcat(a, [x.(isResolved := true)], IsUnresolved);
  }

  /** The open critical alerts counted on the dashboard are among the listed ones. */
  lemma CriticalAmongListed(assets: seq<Asset>, alerts: seq<Alert>)
    ensures DashboardStats.Stats(assets, alerts).criticalAlerts <= HeaderCount(alerts)
  {
    FilterMonotone(alerts, DashboardStats.IsOpenCritical, IsUnresolved);
  }

  /** The fallback name for an alert about an unknown machine. */
  const UnknownAsset := "Desconocido"

  /**
   * The name shown for an alert: that of the first machine with the alert's
   * machine id, unless there is none or its name is empty.
   */
  function AssetName(assets: seq<Asset>, alert: Alert): (name: string)
    ensures (forall i :: 0 <= i < |assets| ==> assets[i].id != alert.assetId) ==> name == UnknownAsset
    ensures forall i :: 0 <= i < |assets| && assets[i].id == alert.assetId &&
                        (forall j :: 0 <= j < i ==> assets[j].id != alert.assetId) ==>
                        name == if assets[i].name != "" then assets[i].name else UnknownAsset
    ensures name != ""
  {
    var found := Find(assets, (a: Asset) => a.id == alert.assetId);
    if found.Some? && found.value.name != "" then found.value.name else UnknownAsset
  }
}
