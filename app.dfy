/**
 * The dashboard's synchronisation trigger: a guard that keeps two runs of
 * the sync from overlapping, the connectivity handlers, and the header
 * badge that reports connectivity and the pending count.
 */
module App {
  import opened Wrappers
  import opened OfflineDb
  import opened Service
  import Backend
  import opened Types

  /** The header badge. */
  datatype Badge = OfflineBadge(pending: nat) | SyncingBadge(pending: nat) | SyncOkBadge

  /** Offline wins; online, a positive pending count shows as syncing; otherwise all is well. */
  function BadgeFor(isOnline: bool, pendingCount: nat): (b: Badge)
    ensures b.OfflineBadge? <==> !isOnline
    ensures b.SyncingBadge? <==> isOnline && pendingCount > 0
    ensures b.SyncOkBadge? <==> isOnline && pendingCount == 0
    ensures !b.SyncOkBadge? ==> b.pending == pendingCount
  {
    if !isOnline then OfflineBadge(pendingCount)
    else if pendingCount > 0 then SyncingBadge(pendingCount)
    else SyncOkBadge
  }

  /** How a call of `runSync` ended. */
  datatype RunOutcome =
    | Skipped     // another run was in progress
    | Completed   // the pending count was refreshed
    | Threw       // the sync or the count query failed; the guard was still released

  class Dashboard {
    const api: SentinelService
    var isOnline: bool
    var isSyncing: bool
    var pendingCount: nat

    ghost predicate Valid()
      reads this, api, api.db
    {
      api.Valid()
    }

    constructor (api: SentinelService, online: bool)
      requires api.Valid()
      ensures Valid() && this.api == api
      ensures isOnline == online && !isSyncing && pendingCount == 0
    {
      this.api := api;
      isOnline := online;
      isSyncing := false;
      pendingCount := 0;
    }

    /** The check-and-set at the top of `runSync`. */
    method BeginRun() returns (started: bool)
      modifies this`isSyncing
      ensures started <==> !old(isSyncing)
      ensures isSyncing
    {
      if isSyncing {
        return false;
      }
      isSyncing := true;
      started := true;
    }

    /**
     * The body of `runSync` once the guard is held: syncs when online,
     * then refreshes the pending count from `count` (the answer of the
     * count query, `None` when it throws); the guard is released however
     * the body ends.
     */
    method FinishRun(online: bool, readOk: bool, net: string -> Attempt, count: Option<nat>)
      returns (outcome: RunOutcome, ghost order: seq<string>)
      requires Valid() && isSyncing
      modifies this, api.db, api.remote
      ensures Valid()
      ensures !isSyncing && isOnline == old(isOnline)
      ensures outcome != Skipped
      ensures outcome == Completed <==> (!online || readOk) && count.Some?
      ensures pendingCount == if outcome == Completed then count.value else old(pendingCount)
      ensures !(online && readOk) ==>
                api.db.logs == old(api.db.logs) &&
                api.remote.rows == old(api.remote.rows) && api.remote.photos == old(api.remote.photos)
      ensures online && readOk ==> SyncedAsSpecified(old(api.db.logs), old(api.remote.rows), old(api.remote.photos), net, order)
    {
      outcome := Completed;
      order := [];
      if online {
        var r;
        r, order := api.SyncPendingLogs(online, readOk, net);
        if r.Err? {
          outcome := Threw;
        }
      }
      if outcome == Completed {
        if count.Some? {
          pendingCount := count.value;
        } else {
          outcome := Threw;
        }
      }
      isSyncing := false;
    }

    /**
     * The queue and the remote store are as a completed sync over the
     * pending records of `logs0`, processed in `order`, leaves them.
     */
    ghost predicate SyncedAsSpecified(logs0: map<string, OfflineLog>, rows0: seq<Backend.DbPayload>,
                                      photos0: map<string, seq<bv8>>, net: string -> Attempt, order: seq<string>)
      reads this, api, api.db, api.remote
    {
      var snap := Pending(logs0);
      api.db.logs == logs0 - Removed(snap, net) &&
      IsOrdering(order, snap.Keys) &&
      api.remote.rows == rows0 + InsertedRows(snap, order, net) &&
      api.remote.photos == PhotosAfter(photos0, snap, order, net)
    }

    /** `runSync`: does nothing while another run holds the guard. */
    method RunSync(online: bool, readOk: bool, net: string -> Attempt, count: Option<nat>)
      returns (outcome: RunOutcome, ghost order: seq<string>)
      requires Valid()
      modifies this, api.db, api.remote
      ensures Valid()
      ensures isOnline == old(isOnline)
      ensures old(isSyncing) ==>
                outcome == Skipped && isSyncing && pendingCount == old(pendingCount) &&
                api.db.logs == old(api.db.logs) &&
                api.remote.rows == old(api.remote.rows) && api.remote.photos == old(api.remote.photos)
      ensures !old(isSyncing) ==>
                !isSyncing && outcome != Skipped &&
                (outcome == Completed <==> (!online || readOk) && count.Some?) &&
                pendingCount == (if outcome == Completed then count.value else old(pendingCount))
      ensures !old(isSyncing) && !(online && readOk) ==>
                api.db.logs == old(api.db.logs) &&
                api.remote.rows == old(api.remote.rows) && api.remote.photos == old(api.remote.photos)
      ensures !old(isSyncing) && online && readOk ==>
                SyncedAsSpecified(old(api.db.logs), old(api.remote.rows), old(api.remote.photos), net, order)
    {
      order := [];
      var started := BeginRun();
      if !started {
        return Skipped, order;
      }
      outcome, order := FinishRun(online, readOk, net, count);
    }

    /**
     * A trigger that fires while a run is suspended at one of its awaits
     * (the 30-second timer, the online event) finds the guard held and
     * changes nothing; the suspended run then completes as if alone, and
     * the second trigger's count plays no part.
     */
    method OverlappingRuns(online: bool, readOk: bool, net: string -> Attempt, count: Option<nat>,
                           count2: Option<nat>)
      returns (first: RunOutcome, second: RunOutcome, ghost order: seq<string>)
      requires Valid() && !isSyncing
      modifies this, api.db, api.remote
      ensures Valid()
      ensures second == Skipped
      ensures !isSyncing && isOnline == old(isOnline)
      ensures first != Skipped && (first == Completed <==> (!online || readOk) && count.Some?)
      ensures pendingCount == if first == Completed then count.value else old(pendingCount)
      ensures !(online && readOk) ==>
                api.db.logs == old(api.db.logs) &&
                api.remote.rows == old(api.remote.rows) && api.remote.photos == old(api.remote.photos)
      ensures online && readOk ==>
                SyncedAsSpecified(old(api.db.logs), old(api.remote.rows), old(api.remote.photos), net, order)
    {
      var started := BeginRun();
      ghost var secondOrder;
      second, secondOrder := RunSync(online, readOk, net, count2);
      first, order := FinishRun(online, readOk, net, count);
    }

    /** The online event: records connectivity, then runs the sync. */
    method HandleOnline(readOk: bool, net: string -> Attempt, count: Option<nat>)
      returns (outcome: RunOutcome, ghost order: seq<string>)
      requires Valid()
      modifies this, api.db, api.remote
      ensures Valid()
      ensures isOnline
      ensures old(isSyncing) ==>
                outcome == Skipped && isSyncing && pendingCount == old(pendingCount) &&
                api.db.logs == old(api.db.logs) &&
                api.remote.rows == old(api.remote.rows) && api.remote.photos == old(api.remote.photos)
      ensures !old(isSyncing) ==>
                !isSyncing && outcome != Skipped &&
                (outcome == Completed <==> readOk && count.Some?) &&
                pendingCount == (if outcome == Completed then count.value else old(pendingCount))
      ensures !old(isSyncing) && !readOk ==>
                api.db.logs == old(api.db.logs) &&
                api.remote.rows == old(api.remote.rows) && api.remote.photos == old(api.remote.photos)
      ensures !old(isSyncing) && readOk ==>
                SyncedAsSpecified(old(api.db.logs), old(api.remote.rows), old(api.remote.photos), net, order)
    {
      isOnline := true;
      outcome, order := RunSync(true, readOk, net, count);
    }

    /** The offline event: only records connectivity. */
    method HandleOffline()
      modifies this`isOnline
      ensures !isOnline
    {
      isOnline := false;
    }
  }
}
