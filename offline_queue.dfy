/**
 * The offline expense upload queue of hooks/useOfflineQueue.ts.
 *
 * One key of the device's key-value store holds the list of pending upload
 * tasks; the hook mirrors it in a `queue` state variable. Remote outcomes
 * (the fetch of the local image, the storage upload, the row insert, the
 * storage write itself) are passed in as oracle parameters.
 */
module OfflineQueue {
  import opened Common
  import opened Types

  /** `UploadTask`: `createdAt` is the millisecond timestamp taken when the task was made. */
  datatype UploadTask = UploadTask(id: string, expenseData: Record, imageUri: string, createdAt: nat)

  /**
   * What reading the key 'offline_upload_queue' yields: nothing stored, a value
   * that cannot be read back (a storage error or JSON that does not parse), or
   * a list of tasks.
   */
  datatype Stored = Absent | Unreadable | Tasks(tasks: seq<UploadTask>)

  /** `getQueue`: a defensive read that turns every failure into the empty list. */
  function Read(s: Stored): (r: seq<UploadTask>)
    ensures s.Tasks? ==> r == s.tasks
    ensures !s.Tasks? ==> r == []
  {
    if s.Tasks? then s.tasks else []
  }

  /** How the replay of one task ends: which remote step failed, if any. */
  datatype Outcome = FetchFailed | UploadFailed | InsertFailed | Synced

  /** The object name a task's receipt is uploaded under: `<user id>/<createdAt>.jpg`. */
  function FileName(uid: string, t: UploadTask): string {
    ReceiptFileName(uid, t.createdAt)
  }

  /** The row inserted into `expenses` for a task whose receipt was uploaded. */
  function ExpenseRow(uid: string, t: UploadTask, urlOf: string -> string): (r: Record)
    ensures r.Keys == t.expenseData.Keys + {"user_id", "receipt_url", "status"}
    ensures r["user_id"] == Str(uid)
    ensures r["receipt_url"] == Str(urlOf(FileName(uid, t)))
    ensures r["status"] == Str("pending")
    ensures forall k :: k in t.expenseData && k !in {"user_id", "receipt_url", "status"} ==>
      r[k] == t.expenseData[k]
  {
    Spread(t.expenseData, map["user_id" := Str(uid), "receipt_url" := Str(urlOf(FileName(uid, t))),
                              "status" := Str("pending")])
  }

  /** The tasks kept for a later retry, in queue order. */
  function Survivors(ts: seq<UploadTask>, os: seq<Outcome>): seq<UploadTask>
    requires |ts| == |os|
  {
    if ts == [] then []
    else Survivors(ts[..|ts| - 1], os[..|os| - 1]) + (if os[|os| - 1] == Synced then [] else [ts[|ts| - 1]])
  }

  /** The names of the receipts that reached storage, in queue order. */
  function Uploads(uid: string, ts: seq<UploadTask>, os: seq<Outcome>): seq<string>
    requires |ts| == |os|
  {
    if ts == [] then [] else
      Uploads(uid, ts[..|ts| - 1], os[..|os| - 1]) +
      (if os[|os| - 1] in {InsertFailed, Synced} then [FileName(uid, ts[|ts| - 1])] else [])
  }

  /** The expense rows that were inserted, in queue order. */
  function Inserts(uid: string, ts: seq<UploadTask>, os: seq<Outcome>, urlOf: string -> string): seq<Record>
    requires |ts| == |os|
  {
    if ts == [] then [] else
      Inserts(uid, ts[..|ts| - 1], os[..|os| - 1], urlOf) +
      (if os[|os| - 1] == Synced then [ExpenseRow(uid, ts[|ts| - 1], urlOf)] else [])
  }

  /** The NetInfo listener's condition: both flags are `true` (either may be `null`). */
  predicate Reachable(isConnected: Option<bool>, isInternetReachable: Option<bool>) {
    isConnected == Some(true) && isInternetReachable == Some(true)
  }

  class OfflineQueueHook {
    /** The persisted value under 'offline_upload_queue'. */
    var stored: Stored
    /** The `queue` state of the hook. */
    var queue: seq<UploadTask>

    constructor(persisted: Stored)
      ensures stored == persisted && queue == []
    {
      stored := persisted;
      queue := [];
    }

    /** `loadQueue`: adopt the stored list when there is one; otherwise only log. */
    method LoadQueue()
      modifies this
      ensures stored == old(stored)
      ensures queue == if old(stored).Tasks? then old(stored).tasks else old(queue)
    {
      if stored.Tasks? {
        queue := stored.tasks;
      }
    }

    /**
     * `addToQueue`: re-read the stored list, append the task and write it back;
     * a failed write is caught and changes nothing.
     */
    method AddToQueue(task: UploadTask, writeOk: bool)
      modifies this
      ensures writeOk ==> stored == Tasks(Read(old(stored)) + [task]) && queue == Read(old(stored)) + [task]
      ensures !writeOk ==> stored == old(stored) && queue == old(queue)
    {
      var current := Read(stored);
      var newQueue := current + [task];
      if writeOk {
        stored := Tasks(newQueue);
        queue := newQueue;
      }
    }

    /**
     * `processQueue`: replay every stored task oldest first for the signed-in
     * user `user`; `outcomes[i]` is how task i ends, `urlOf` is the storage's
     * public-URL mapping and `writeOk` whether the final write succeeds.
     */
    method ProcessQueue(user: Option<string>, outcomes: seq<Outcome>, urlOf: string -> string, writeOk: bool)
      returns (uploaded: seq<string>, inserted: seq<Record>)
      requires |outcomes| == |Read(stored)|
      modifies this
      ensures Read(old(stored)) == [] || user.None? ==>
        stored == old(stored) && queue == old(queue) && uploaded == [] && inserted == []
      ensures Read(old(stored)) != [] && user.Some? ==>
        uploaded == Uploads(user.value, Read(old(stored)), outcomes) &&
        inserted == Inserts(user.value, Read(old(stored)), outcomes, urlOf) &&
        (writeOk ==> stored == Tasks(Survivors(Read(old(stored)), outcomes)) &&
                     queue == Survivors(Read(old(stored)), outcomes)) &&
        (!writeOk ==> stored == old(stored) && queue == old(queue))
    {
      var current := Read(stored);
      if |current| == 0 {
        return [], [];
      }
      if user.None? {
        return [], [];
      }
      var uid := user.value;
      var remaining: seq<UploadTask> := [];
      uploaded, inserted := [], [];
      for i := 0 to |current|
        invariant remaining == Survivors(current[..i], outcomes[..i])
        invariant uploaded == Uploads(uid, current[..i], outcomes[..i])
        invariant inserted == Inserts(uid, current[..i], outcomes[..i], urlOf)
        invariant stored == old(stored) && queue == old(queue)
      {
        PrefixStep(current, outcomes, i);
        var task := current[i];
        if outcomes[i] == FetchFailed {
          remaining := remaining + [task];
        } else {
          var fileName := FileName(uid, task);
          if outcomes[i] == UploadFailed {
            remaining := remaining + [task];
          } else {
            uploaded := uploaded + [fileName];
            var row := ExpenseRow(uid, task, urlOf);
            if outcomes[i] == InsertFailed {
              remaining := remaining + [task];
            } else {
              inserted := inserted + [row];
            }
          }
        }
      }
      assert current[..|current|] == current && outcomes[..|outcomes|] == outcomes;
      if writeOk {
        stored := Tasks(remaining);
        queue := remaining;
      }
    }

    /** The NetInfo listener: replay only when connected and internet-reachable. */
    method OnNetInfo(isConnected: Option<bool>, isInternetReachable: Option<bool>,
                     user: Option<string>, outcomes: seq<Outcome>, urlOf: string -> string, writeOk: bool)
      returns (uploaded: seq<string>, inserted: seq<Record>)
      requires |outcomes| == |Read(stored)|
      modifies this
      ensures !Reachable(isConnected, isInternetReachable) ==>
        stored == old(stored) && queue == old(queue) && uploaded == [] && inserted == []
      ensures Reachable(isConnected, isInternetReachable) && (Read(old(stored)) == [] || user.None?) ==>
        stored == old(stored) && queue == old(queue) && uploaded == [] && inserted == []
      ensures Reachable(isConnected, isInternetReachable) && Read(old(stored)) != [] && user.Some? ==>
        uploaded == Uploads(user.value, Read(old(stored)), outcomes) &&
        inserted == Inserts(user.value, Read(old(stored)), outcomes, urlOf) &&
        (writeOk ==> stored == Tasks(Survivors(Read(old(stored)), outcomes)) &&
                     queue == Survivors(Read(old(stored)), outcomes)) &&
        (!writeOk ==> stored == old(stored) && queue == old(queue))
    {
      if isConnected == Some(true) && isInternetReachable == Some(true) {
        uploaded, inserted := ProcessQueue(user, outcomes, urlOf, writeOk);
      } else {
        uploaded, inserted := [], [];
      }
    }
  }

  /** Extending the processed prefix by one element. */
  lemma PrefixStep<T, U>(ts: seq<T>, os: seq<U>, i: int)
    requires 0 <= i < |ts| == |os|
    ensures ts[..i + 1][..i] == ts[..i] && ts[..i + 1][i] == ts[i]
    ensures os[..i + 1][..i] == os[..i] && os[..i + 1][i] == os[i]
  {
  }

  /** Replaying a concatenation keeps the survivors of each part: one task's outcome never affects another's. */
  lemma {:induction false} SurvivorsAppend(a: seq<UploadTask>, oa: seq<Outcome>, b: seq<UploadTask>, ob: seq<Outcome>)
    requires |a| == |oa| && |b| == |ob|
    ensures Survivors(a + b, oa + ob) == Survivors(a, oa) + Survivors(b, ob)
    decreases |b|
  {
    if b == [] {
      assert a + b == a && oa + ob == oa;
    } else {
      var b', ob' := b[..|b| - 1], ob[..|ob| - 1];
      assert (a + b)[..|a + b| - 1] == a + b' && (oa + ob)[..|oa + ob| - 1] == oa + ob';
      SurvivorsAppend(a, oa, b', ob');
    }
  }

  /** The same isolation for the inserted rows. */
  lemma {:induction false} InsertsAppend(uid: string, a: seq<UploadTask>, oa: seq<Outcome>,
                                         b: seq<UploadTask>, ob: seq<Outcome>, urlOf: string -> string)
    requires |a| == |oa| && |b| == |ob|
    ensures Inserts(uid, a + b, oa + ob, urlOf) == Inserts(uid, a, oa, urlOf) + Inserts(uid, b, ob, urlOf)
    decreases |b|
  {
    if b == [] {
      assert a + b == a && oa + ob == oa;
    } else {
      var b', ob' := b[..|b| - 1], ob[..|ob| - 1];
      assert (a + b)[..|a + b| - 1] == a + b' && (oa + ob)[..|oa + ob| - 1] == oa + ob';
      InsertsAppend(uid, a, oa, b', ob', urlOf);
    }
  }

  /** A task survives the replay exactly when its own upload or insert failed. */
  lemma {:induction false} SurvivorsMember(ts: seq<UploadTask>, os: seq<Outcome>, t: UploadTask)
    requires |ts| == |os|
    ensures t in Survivors(ts, os) <==> exists i :: 0 <= i < |ts| && ts[i] == t && os[i] != Synced
  {
    if ts != [] {
      var n := |ts| - 1;
      SurvivorsMember(ts[..n], os[..n], t);
      if exists i :: 0 <= i < |ts| && ts[i] == t && os[i] != Synced {
        var i :| 0 <= i < |ts| && ts[i] == t && os[i] != Synced;
        if i < n {
          assert ts[..n][i] == t && os[..n][i] != Synced;
        }
      }
      if t in Survivors(ts[..n], os[..n]) {
        var i :| 0 <= i < n && ts[..n][i] == t && os[..n][i] != Synced;
        assert ts[i] == t && os[i] != Synced;
      }
    }
  }

  /** If every task syncs, nothing survives. */
  lemma {:induction false} AllSyncedLeavesNothing(ts: seq<UploadTask>, os: seq<Outcome>)
    requires |ts| == |os|
    requires forall i :: 0 <= i < |os| ==> os[i] == Synced
    ensures Survivors(ts, os) == []
  {
    if ts != [] {
      AllSyncedLeavesNothing(ts[..|ts| - 1], os[..|os| - 1]);
    }
  }

  /** If no task syncs, the whole queue is kept unchanged and in order. */
  lemma {:induction false} NoneSyncedKeepsAll(ts: seq<UploadTask>, os: seq<Outcome>)
    requires |ts| == |os|
    requires forall i :: 0 <= i < |os| ==> os[i] != Synced
    ensures Survivors(ts, os) == ts
  {
    if ts != [] {
      NoneSyncedKeepsAll(ts[..|ts| - 1], os[..|os| - 1]);
      assert ts[..|ts| - 1] + [ts[|ts| - 1]] == ts;
    }
  }

  /** The survivors never outnumber the queue. */
  lemma {:induction false} SurvivorsShorter(ts: seq<UploadTask>, os: seq<Outcome>)
    requires |ts| == |os|
    ensures |Survivors(ts, os)| <= |ts|
  {
    if ts != [] {
      SurvivorsShorter(ts[..|ts| - 1], os[..|os| - 1]);
    }
  }

  /** A row is inserted for each task whose every step succeeded. */
  lemma {:induction false} InsertsComplete(uid: string, ts: seq<UploadTask>, os: seq<Outcome>,
                                           urlOf: string -> string, i: int)
    requires |ts| == |os| && 0 <= i < |ts| && os[i] == Synced
    ensures ExpenseRow(uid, ts[i], urlOf) in Inserts(uid, ts, os, urlOf)
  {
    var n := |ts| - 1;
    if i < n {
      assert os[..n][i] == Synced && ts[..n][i] == ts[i];
      InsertsComplete(uid, ts[..n], os[..n], urlOf, i);
    }
  }

  /** Every inserted row is the row of some task whose every step succeeded. */
  lemma {:induction false} InsertsSound(uid: string, ts: seq<UploadTask>, os: seq<Outcome>,
                                        urlOf: string -> string, r: Record)
    requires |ts| == |os| && r in Inserts(uid, ts, os, urlOf)
    ensures exists i :: 0 <= i < |ts| && os[i] == Synced && r == ExpenseRow(uid, ts[i], urlOf)
  {
    var n := |ts| - 1;
    if r in Inserts(uid, ts[..n], os[..n], urlOf) {
      InsertsSound(uid, ts[..n], os[..n], urlOf, r);
      var i :| 0 <= i < n && os[..n][i] == Synced && r == ExpenseRow(uid, ts[..n][i], urlOf);
      assert os[i] == Synced && ts[i] == ts[..n][i];
    } else {
      assert os[n] == Synced && r == ExpenseRow(uid, ts[n], urlOf);
    }
  }

  /**
   * Every inserted row is 'pending', belongs to the replaying user and points at
   * the uploaded receipt, whatever same-named fields the task's payload held.
   */
  lemma InsertedRowShape(uid: string, ts: seq<UploadTask>, os: seq<Outcome>, urlOf: string -> string, r: Record)
    requires |ts| == |os| && r in Inserts(uid, ts, os, urlOf)
    ensures "status" in r && r["status"] == Str("pending")
    ensures "user_id" in r && r["user_id"] == Str(uid)
    ensures "receipt_url" in r && exists i :: 0 <= i < |ts| && r["receipt_url"] == Str(urlOf(FileName(uid, ts[i])))
  {
    InsertsSound(uid, ts, os, urlOf, r);
  }

  /** Appending and then replaying with every task synced empties the store. */
  lemma AddThenSyncAll(ts: seq<UploadTask>, t: UploadTask, os: seq<Outcome>)
    requires |os| == |ts| + 1
    requires forall i :: 0 <= i < |os| ==> os[i] == Synced
    ensures Survivors(ts + [t], os) == []
  {
    AllSyncedLeavesNothing(ts + [t], os);
  }
}
