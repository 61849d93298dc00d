/**
 * The local queue: the `logs` table of the device's IndexedDB database,
 * keyed by the record's `id`.
 */
module OfflineDb {
  import opened Types

  /** The records not yet marked as synced. */
  function Pending(logs: map<string, OfflineLog>): (p: map<string, OfflineLog>)
    ensures p.Keys <= logs.Keys
    ensures forall id :: id in p <==> id in logs && !logs[id].synced
    ensures forall id :: id in p ==> p[id] == logs[id]
  {
    map id | id in logs && !logs[id].synced :: logs[id]
  }

  /** Adding an unsynced record under a fresh key adds exactly one pending record. */
  lemma AddPending(logs: map<string, OfflineLog>, r: OfflineLog)
    requires r.id !in logs && !r.synced
    ensures Pending(logs[r.id := r]) == Pending(logs)[r.id := r]
    ensures |Pending(logs[r.id := r])| == |Pending(logs)| + 1
  {
    assert Pending(logs[r.id := r]).Keys == Pending(logs).Keys + {r.id};
  }

  /** Removing records never adds a pending one, and keeps those not removed. */
  lemma RemovePending(logs: map<string, OfflineLog>, gone: set<string>)
    ensures Pending(logs - gone) == Pending(logs) - gone
  {
  }

  class LogTable {
    /** The table's rows by primary key. */
    var logs: map<string, OfflineLog>

    /** Every row is stored under its own `id`. */
    ghost predicate Valid()
      reads this
    {
      forall id :: id in logs ==> logs[id].id == id
    }

    constructor ()
      ensures Valid() && logs == map[]
    {
      logs := map[];
    }

    /**
     * `add(record)`: refused when the key is taken (a constraint error) or
     * when the storage layer fails (`storageOk` false, e.g. quota exceeded).
     */
    method Add(r: OfflineLog, storageOk: bool) returns (ok: bool)
      requires Valid()
      modifies this
      ensures Valid()
      ensures ok <==> storageOk && r.id !in old(logs)
      ensures logs == if ok then old(logs)[r.id := r] else old(logs)
    {
      ok := storageOk && r.id !in logs;
      if ok {
        logs := logs[r.id := r];
      }
    }

    /** `delete(id)`: removes the row if there is one; fails only on a storage fault. */
    method Delete(id: string, storageOk: bool) returns (ok: bool)
      requires Valid()
      modifies this
      ensures Valid()
      ensures ok == storageOk
      ensures logs == if ok then old(logs) - {id} else old(logs)
    {
      ok := storageOk;
      if ok {
        logs := logs - {id};
      }
    }

    /**
     * `filter(log => !log.synced).toArray()`: a snapshot of the pending rows,
     * or a failure when the storage layer cannot be read.
     */
    method PendingSnapshot(readOk: bool) returns (ok: bool, snapshot: map<string, OfflineLog>)
      requires Valid()
      ensures ok == readOk
      ensures ok ==> snapshot == Pending(logs)
      ensures !ok ==> snapshot == map[]
    {
      ok := readOk;
      snapshot := if ok then map id | id in logs && !logs[id].synced :: logs[id] else map[];
    }
  }
}
