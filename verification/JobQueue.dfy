/**
 The jobs table and its statements: internal/storage/postgres/jobs.go over
 migrations/006_jobs.sql. A repository call is one atomic step on the rows.
 */
module JobQueue {
  import opened Summaries

  type Time = int
  type JobId = nat

  datatype Status = Pending | Running | RetryWait | Completed | Dead

  /** `scheduled_pipeline:<schedule>:<local date>`, or any other key text. */
  datatype Key = DailyKey(schedule: nat, day: int) | OtherKey(text: string)

  /** A scheduled pipeline job names its schedule; other jobs are opaque. */
  datatype Payload = Pipeline(schedule: nat) | Opaque(text: string)

  datatype Row = Row(
    payload: Payload, status: Status, attempt: nat, maxAttempts: int, availableAt: Time, createdAt: Time,
    lockedAt: Option<Time>, lockedBy: Option<string>, leaseExpiresAt: Option<Time>,
    startedAt: Option<Time>, finishedAt: Option<Time>, lastError: Option<string>, key: Option<Key>, result: string)

  datatype JobRequest = JobRequest(
    payload: Payload, status: Option<Status>, maxAttempts: int, availableAt: Option<Time>, key: Option<Key>)

  datatype Queue = Queue(rows: map<JobId, Row>, nextId: JobId)

  const DEFAULT_MAX_ATTEMPTS: int := 4
  const DEFAULT_LEASE: Time := 300_000_000_000

  predicate Live(row: Row) {
    row.status in {Pending, Running, RetryWait}
  }

  predicate Claimable(row: Row, now: Time) {
    row.status in {Pending, RetryWait} && row.availableAt <= now
  }

  /** Ids below `nextId` are the only ones ever given out. */
  predicate Valid(q: Queue) {
    forall id :: id in q.rows ==> id < q.nextId
  }

  /** The partial unique index on live deduplication keys. */
  predicate UniqueLive(rows: map<JobId, Row>) {
    forall i, j :: i in rows && j in rows && i != j && Live(rows[i]) && Live(rows[j]) && rows[i].key.Some? ==>
      rows[i].key != rows[j].key
  }

  /** A live row other than `id` holds the key. */
  predicate KeyTaken(rows: map<JobId, Row>, id: JobId, key: Option<Key>) {
    key.Some? && exists i :: i in rows && i != id && Live(rows[i]) && rows[i].key == key
  }

  // ----- the statements, row by row

  function NewRow(r: JobRequest, now: Time): Row {
    Row(r.payload, if r.status.None? then Pending else r.status.value, 0,
        if r.maxAttempts <= 0 then DEFAULT_MAX_ATTEMPTS else r.maxAttempts,
        if r.availableAt.None? then now else r.availableAt.value, now,
        None, None, None, None, None, None, r.key, "{}")
  }

  /** INSERT .. ON CONFLICT: a live row with the same key is left as it is. */
  function Enqueued(q: Queue, r: JobRequest, now: Time): Queue {
    var row := NewRow(r, now);
    if Live(row) && KeyTaken(q.rows, q.nextId, row.key) then q
    else Queue(q.rows[q.nextId := row], q.nextId + 1)
  }

  function Lease(lease: Time): Time {
    if lease <= 0 then DEFAULT_LEASE else lease
  }

  function ClaimedRow(row: Row, worker: string, lease: Time, now: Time): Row {
    row.(status := Running, attempt := row.attempt + 1, lockedAt := Some(now), lockedBy := Some(worker),
         leaseExpiresAt := Some(now + Lease(lease)),
      startedAt := if row.startedAt.Some? then row.startedAt else Some(now),
         lastError := None)
  }

  function CompletedRow(row: Row, result: string, now: Time): Row {
    row.(status := Completed, lockedAt := None, lockedBy := None, leaseExpiresAt := None,
         finishedAt := Some(now), lastError := None, result := if result == "" then "{}" else result)
  }

  function RetriedRow(row: Row, availableAt: Time, message: string, now: Time): Row {
    var exhausted := row.attempt >= row.maxAttempts;
    row.(
      status := if exhausted then Dead else RetryWait,
      availableAt := if exhausted then row.availableAt else availableAt,
         lockedAt := None, lockedBy := None, leaseExpiresAt := None,
         finishedAt := if exhausted then Some(now) else None, lastError := Some(message))
  }

  function DeadRow(row: Row, message: string, now: Time): Row {
    row.(status := Dead, lockedAt := None, lockedBy := None, leaseExpiresAt := None,
         finishedAt := Some(now), lastError := Some(message))
  }

  predicate Expired(row: Row, now: Time) {
    row.status == Running && row.leaseExpiresAt.Some? && row.leaseExpiresAt.value < now
  }

  function RecoveredRow(row: Row, now: Time): Row {
    if Expired(row, now) then
      row.(status := RetryWait, availableAt := now, lockedAt := None, lockedBy := None, leaseExpiresAt := None,
           lastError := Some("lease expired"))
    else row
  }

  function ExtendedRow(row: Row, worker: string, lease: Time, now: Time): Row {
    if row.lockedBy == Some(worker) && row.status == Running then row.(leaseExpiresAt := Some(now + Lease(lease)))
    else row
  }

  /** How a handler's outcome is written back. */
  datatype Finish = Succeed(result: string) | Fail(message: string, availableAt: Time) | Kill(message: string)

  function FinishedRow(row: Row, how: Finish, now: Time): Row {
    match how
    case Succeed(result) => CompletedRow(row, result, now)
    case Fail(message, availableAt) => RetriedRow(row, availableAt, message, now)
    case Kill(message) => DeadRow(row, message, now)
  }

  /** An UPDATE without a status check; the unique index can make it fail. */
  function Finished(q: Queue, id: JobId, how: Finish, now: Time): Queue {
    if id !in q.rows then q
    else
      var row := FinishedRow(q.rows[id], how, now);
      if Live(row) && KeyTaken(q.rows, id, row.key) then q else q.(rows := q.rows[id := row])
  }

  function Recovered(q: Queue, now: Time): Queue {
    q.(rows := map id | id in q.rows :: RecoveredRow(q.rows[id], now))
  }

  function Extended(q: Queue, id: JobId, worker: string, lease: Time, now: Time): Queue {
    if id !in q.rows then q else q.(rows := q.rows[id := ExtendedRow(q.rows[id], worker, lease, now)])
  }

  // ----- the index survives every statement

  lemma EnqueuedKeepsIndex(q: Queue, r: JobRequest, now: Time)
    requires Valid(q) && UniqueLive(q.rows)
    ensures Valid(Enqueued(q, r, now)) && UniqueLive(Enqueued(q, r, now).rows)
    ensures r.key.Some? && Live(NewRow(r, now)) ==>
              exists id ::
                && id in Enqueued(q, r, now).rows
                && Live(Enqueued(q, r, now).rows[id])
                && Enqueued(q, r, now).rows[id].key == r.key
  {
    var after := Enqueued(q, r, now);
    if r.key.Some? && Live(NewRow(r, now)) && !KeyTaken(q.rows, q.nextId, r.key) {
      assert q.nextId in after.rows && after.rows[q.nextId] == NewRow(r, now);
    }
  }

  lemma FinishedKeepsIndex(q: Queue, id: JobId, how: Finish, now: Time)
    requires Valid(q) && UniqueLive(q.rows)
    ensures Valid(Finished(q, id, how, now)) && UniqueLive(Finished(q, id, how, now).rows)
  {
  }

  lemma RecoveredKeepsIndex(q: Queue, now: Time)
    requires Valid(q) && UniqueLive(q.rows)
    ensures Valid(Recovered(q, now)) && UniqueLive(Recovered(q, now).rows)
  {
  }

  // ----- what the statements promise of a row, column by column

  /** A fresh job: nobody holds it, nothing has happened to it. */
  ghost predicate Inserted(row: Row, r: JobRequest, now: Time) {
    && row.payload == r.payload && row.key == r.key && row.attempt == 0 && row.createdAt == now
    && (r.status.Some? ==> row.status == r.status.value) && (r.status.None? ==> row.status == Pending)
    && row.maxAttempts > 0 && (r.maxAttempts > 0 ==> row.maxAttempts == r.maxAttempts)
    && (r.availableAt.Some? ==> row.availableAt == r.availableAt.value)
    && (r.availableAt.None? ==> row.availableAt == now)
    && Unheld(row) && row.startedAt.None? && row.finishedAt.None? && row.lastError.None?
  }

  ghost predicate Unheld(row: Row) {
    row.lockedAt.None? && row.lockedBy.None? && row.leaseExpiresAt.None?
  }

  /** Due now: claimable and not put off. */
  ghost predicate DueRow(row: Row, now: Time) {
    !row.status.Running? && !row.status.Completed? && !row.status.Dead? && !(row.availableAt > now)
  }

  /** The job has been available for at least as long, and among equals was there first. */
  ghost predicate NoLaterThan(a: Row, b: Row) {
    a.availableAt <= b.availableAt && (a.availableAt == b.availableAt ==> a.createdAt <= b.createdAt)
  }

  /** The worker holds the job for its lease, and one more attempt is counted. */
  ghost predicate TakenBy(before: Row, after: Row, worker: string, lease: Time, now: Time) {
    && after == before.(status := Running, attempt := before.attempt + 1, lockedAt := Some(now),
                        lockedBy := Some(worker), leaseExpiresAt := after.leaseExpiresAt, startedAt := after.startedAt,
                        lastError := None)
    && after.leaseExpiresAt.Some? && after.leaseExpiresAt.value > now
    && (lease > 0 ==> after.leaseExpiresAt.value - now == lease)
    && after.startedAt.Some? && (before.startedAt.Some? ==> after.startedAt == before.startedAt)
    && (before.startedAt.None? ==> after.startedAt.value == now)
  }

  /**
   The outcome is on the row, and nobody holds it: a failed job waits until the given
   time as long as it has attempts left and is dead otherwise.
   */
  ghost predicate WrittenBack(before: Row, after: Row, how: Finish, now: Time) {
    && Unheld(after)
    && after == before.(status := after.status, availableAt := after.availableAt, lockedAt := None, lockedBy := None,
                        leaseExpiresAt := None, finishedAt := after.finishedAt, lastError := after.lastError,
                        result := after.result)
    && (after.status == RetryWait <==> how.Fail? && before.attempt < before.maxAttempts)
    && (after.status == Completed <==> how.Succeed?)
    && (after.status == Dead <==> how.Kill? || (how.Fail? && before.attempt >= before.maxAttempts))
    && after.availableAt == (if after.status == RetryWait then how.availableAt else before.availableAt)
    && after.finishedAt == (if after.status == RetryWait then None else Some(now))
    && after.lastError == (if how.Succeed? then None else Some(how.message))
    && (how.Succeed? && how.result != "" ==> after.result == how.result)
    && (!how.Succeed? ==> after.result == before.result)
  }

  /** A running row whose lease has passed can be claimed from now on; any other row is as it was. */
  ghost predicate TakenBack(before: Row, after: Row, now: Time) {
    if before.status == Running && before.leaseExpiresAt.Some? && !(before.leaseExpiresAt.value >= now) then
      && Unheld(after) && after.status == RetryWait && after.availableAt == now && after.lastError.Some?
      && after == before.(status := RetryWait, availableAt := now, lockedAt := None, lockedBy := None,
                          leaseExpiresAt := None, lastError := after.lastError)
    else after == before
  }

  // ----- the repository

  class JobRepository {
    var rows: map<JobId, Row>
    var nextId: JobId

    constructor ()
      ensures Value() == Queue(map[], 0)
    {
      rows, nextId := map[], 0;
    }

    function Value(): Queue
      reads this
    {
      Queue(rows, nextId)
    }

    /** A fresh row, or the live row that already holds the key. */
    method Enqueue(r: JobRequest, now: Time) returns (id: JobId)
      requires Valid(Value())
      modifies this
      ensures Value() == Enqueued(old(Value()), r, now)
      ensures id in rows
      ensures Inserted(rows[id], r, now) || (rows == old(rows) && Live(rows[id]) && rows[id].key == r.key)
      ensures rows != old(rows) ==> id !in old(rows) && Inserted(rows[id], r, now)
    {
      var row := NewRow(r, now);
      if Live(row) && row.key.Some? {
        for i := 0 to nextId
          invariant rows == old(rows) && nextId == old(nextId)
          invariant forall j :: j in rows && j < i ==> !Live(rows[j]) || rows[j].key != row.key
        {
          if i in rows && Live(rows[i]) && rows[i].key == row.key {
            return i;
          }
        }
      }
      id := nextId;
      rows := rows[id := row];
      nextId := nextId + 1;
    }

    /** ORDER BY available_at, created_at LIMIT 1. */
    method ClaimNext(worker: string, lease: Time, now: Time) returns (id: Option<JobId>)
      requires Valid(Value())
      modifies this
      ensures nextId == old(nextId)
      ensures id.None? ==> rows == old(rows) && forall i :: i in rows ==> !DueRow(rows[i], now)
      ensures id.Some? ==>
                && id.value in old(rows) && DueRow(old(rows)[id.value], now)
                && id.value in rows && rows == old(rows)[id.value := rows[id.value]]
                && TakenBy(old(rows)[id.value], rows[id.value], worker, lease, now)
                && rows[id.value] == ClaimedRow(old(rows)[id.value], worker, lease, now)
                && forall i ::
                     i in old(rows) && DueRow(old(rows)[i], now) ==> NoLaterThan(old(rows)[id.value], old(rows)[i])
    {
      id := None;
      for i := 0 to nextId
        invariant rows == old(rows) && nextId == old(nextId)
        invariant id.Some? ==> id.value in rows && Claimable(rows[id.value], now)
        invariant forall j ::
                    j in rows && j < i && Claimable(rows[j], now) ==> id.Some? && NoLaterThan(rows[id.value], rows[j])
      {
        if i in rows && Claimable(rows[i], now) {
          if id.None? || rows[i].availableAt < rows[id.value].availableAt
             || (rows[i].availableAt == rows[id.value].availableAt && rows[i].createdAt < rows[id.value].createdAt) {
            id := Some(i);
          }
        }
      }
      if id.Some? {
        rows := rows[id.value := ClaimedRow(rows[id.value], worker, lease, now)];
      }
    }

    /** CompleteWithResult, Retry and Dead. */
    method Finish(id: JobId, how: Finish, now: Time) returns (ok: bool)
      requires Valid(Value())
      modifies this
      ensures Value() == Finished(old(Value()), id, how, now)
      ensures ok && id in old(rows) ==> id in rows && WrittenBack(old(rows)[id], rows[id], how, now)
      ensures !ok ==> rows == old(rows) && id in rows && KeyTaken(rows, id, rows[id].key)
    {
      if id !in rows {
        return true;
      }
      var row := FinishedRow(rows[id], how, now);
      if Live(row) && row.key.Some? {
        for i := 0 to nextId
          invariant rows == old(rows) && nextId == old(nextId)
          invariant forall j :: j in rows && j < i && j != id ==> !Live(rows[j]) || rows[j].key != row.key
        {
          if i in rows && i != id && Live(rows[i]) && rows[i].key == row.key {
            return false;
          }
        }
      }
      rows := rows[id := row];
      return true;
    }

    method RecoverExpiredLeases(now: Time) returns (count: nat)
      requires Valid(Value())
      modifies this
      ensures Value() == Recovered(old(Value()), now)
      ensures forall id :: id in old(rows) ==> id in rows && TakenBack(old(rows)[id], rows[id], now)
      ensures count == |ExpiredIds(old(rows), now)|
    {
      count := 0;
      for i := 0 to nextId
        invariant nextId == old(nextId) && PartlyRecovered(old(rows), rows, i, now)
        invariant count == |ExpiredBelow(old(rows), i, now)|
      {
        RecoverOneMore(old(rows), rows, i, now);
        if i in rows && Expired(rows[i], now) {
          rows := rows[i := RecoveredRow(rows[i], now)];
          count := count + 1;
        }
      }
      AllRecovered(old(Value()), rows, now);
    }

    /**
     The holder's heartbeat keeps its row out of recovery for another lease; anyone
     else's, and one for a row that is not running, changes nothing.
     */
    method ExtendLease(id: JobId, worker: string, lease: Time, now: Time)
      modifies this
      ensures Value() == Extended(old(Value()), id, worker, lease, now)
      ensures rows == old(rows) || (id in rows && rows[id].status == Running && rows[id].lockedBy == Some(worker))
      ensures id in old(rows) ==>
                id in rows && rows[id] == old(rows)[id].(leaseExpiresAt := rows[id].leaseExpiresAt)
      ensures id in rows && rows[id].status == Running && rows[id].lockedBy == Some(worker) ==>
                && rows[id].leaseExpiresAt.Some? && rows[id].leaseExpiresAt.value > now
                && (lease > 0 ==> rows[id].leaseExpiresAt.value - now == lease)
      ensures forall i :: i in old(rows) && i != id ==> i in rows && rows[i] == old(rows)[i]
      ensures id in rows && rows[id].status == Running && rows[id].lockedBy == Some(worker) ==>
                forall later: Time :: later <= now + Lease(lease) ==> Recovered(Value(), later).rows[id] == rows[id]
      ensures old(UniqueLive(rows)) ==> UniqueLive(rows)
    {
      if id in rows {
        rows := rows[id := ExtendedRow(rows[id], worker, lease, now)];
      }
    }
  }

  /** Rows whose lease has run out. */
  ghost function ExpiredIds(rows: map<JobId, Row>, now: Time): set<JobId> {
    set id | id in rows && Expired(rows[id], now)
  }

  ghost function ExpiredBelow(rows: map<JobId, Row>, n: nat, now: Time): set<JobId> {
    set id | id in rows && id < n && Expired(rows[id], now)
  }

  ghost predicate PartlyRecovered(before: map<JobId, Row>, after: map<JobId, Row>, n: nat, now: Time) {
    && after.Keys == before.Keys
    && forall j :: j in after ==> after[j] == if j < n then RecoveredRow(before[j], now) else before[j]
  }

  lemma RecoverOneMore(before: map<JobId, Row>, after: map<JobId, Row>, i: nat, now: Time)
    requires PartlyRecovered(before, after, i, now)
    ensures var expired := i in after && Expired(after[i], now);
            && |ExpiredBelow(before, i + 1, now)| == |ExpiredBelow(before, i, now)| + (if expired then 1 else 0)
            && PartlyRecovered(before, if expired then after[i := RecoveredRow(after[i], now)] else after, i + 1, now)
  {
    if i in after && Expired(after[i], now) {
      assert ExpiredBelow(before, i + 1, now) == ExpiredBelow(before, i, now) + {i};
    } else {
      assert ExpiredBelow(before, i + 1, now) == ExpiredBelow(before, i, now);
    }
  }

  lemma AllRecovered(q: Queue, after: map<JobId, Row>, now: Time)
    requires Valid(q) && PartlyRecovered(q.rows, after, q.nextId, now)
    ensures after == Recovered(q, now).rows && ExpiredBelow(q.rows, q.nextId, now) == ExpiredIds(q.rows, now)
  {
  }
}
