/**
 One worker on its own: `RunOnce`, `backoff` and the drain loop (internal/jobs/worker.go,
 cmd/summary-worker/main.go).
 */
module Worker {
  import opened JobQueue
  import opened Summaries

  const MINUTE: Time := 60_000_000_000

  /** What a handler can end in; which one is not under the worker's control. */
  datatype HandlerOutcome = Success(result: string) | PermanentError(message: string) | TemporaryError(message: string)

  function BackoffBase(attempt: int): Time {
    if attempt <= 1 then MINUTE
    else if attempt == 2 then 5 * MINUTE
    else if attempt == 3 then 15 * MINUTE
    else 60 * MINUTE
  }

  /** `steps[min(attempt, 4) - 1]` plus a jitter below a fifth of it. */
  method Backoff(attempt: int, jitter: Time) returns (delay: Time)
    requires 0 <= jitter < BackoffBase(attempt) / 5
    ensures BackoffBase(attempt) <= delay && 5 * delay < 6 * BackoffBase(attempt)
    ensures delay == BackoffBase(attempt) + jitter
  {
    var steps := [MINUTE, 5 * MINUTE, 15 * MINUTE, 60 * MINUTE];
    var index := if attempt <= 0 then 0 else attempt - 1;
    if index >= |steps| {
      index := |steps| - 1;
    }
    delay := steps[index] + jitter;
  }

  /** Attempts a row may still consume, counting one for a row whose maximum is used up. */
  function Fuel(row: Row): nat {
    if !Live(row) then 0
    else if row.maxAttempts - row.attempt > 1 then row.maxAttempts - row.attempt
    else 1
  }

  function TotalFuel(rows: map<JobId, Row>, n: nat): nat {
    if n == 0 then 0
    else TotalFuel(rows, n - 1) + if n - 1 in rows then Fuel(rows[n - 1]) else 0
  }

  lemma {:induction false} FuelUpdate(rows: map<JobId, Row>, n: nat, id: JobId, row: Row)
    requires id in rows && id < n
    ensures TotalFuel(rows[id := row], n) == TotalFuel(rows, n) - Fuel(rows[id]) + Fuel(row)
  {
    if id < n - 1 {
      FuelUpdate(rows, n - 1, id, row);
    } else {
      FuelOfOthers(rows, n - 1, id, row);
    }
  }

  lemma {:induction false} FuelOfOthers(rows: map<JobId, Row>, n: nat, id: JobId, row: Row)
    requires n <= id
    ensures TotalFuel(rows[id := row], n) == TotalFuel(rows, n)
  {
    if n > 0 {
      FuelOfOthers(rows, n - 1, id, row);
    }
  }

  lemma {:induction false} RecoveryKeepsFuel(q: Queue, now: Time, n: nat)
    ensures TotalFuel(Recovered(q, now).rows, n) == TotalFuel(q.rows, n)
  {
    if n > 0 {
      RecoveryKeepsFuel(q, now, n - 1);
    }
  }

  /** Claimed once and finished any way, a row has less fuel. */
  lemma HandledRowHasLessFuel(row: Row, worker: string, lease: Time, now: Time, how: Finish, later: Time)
    requires Live(row)
    ensures Fuel(FinishedRow(ClaimedRow(row, worker, lease, now), how, later)) < Fuel(row)
  {
  }

  /** The row after one claim and one finish. */
  function HandledRow(row: Row, worker: string, now: Time, how: Finish, later: Time): Row {
    FinishedRow(ClaimedRow(row, worker, DEFAULT_LEASE, now), how, later)
  }

  /** A retry is due between one and one point two backoff steps after the handler ended. */
  predicate TimelyRetry(how: Finish, attempt: nat, later: Time) {
    how.Fail? ==>
      later + BackoffBase(attempt) <= how.availableAt && 5 * (how.availableAt - later) < 6 * BackoffBase(attempt)
  }

  /** A result completes the job, a permanent error ends it, any other error asks for a retry. */
  ghost predicate Reported(outcome: HandlerOutcome, how: Finish) {
    match how
    case Succeed(result) => outcome == Success(result)
    case Kill(message) => outcome == PermanentError(message)
    case Fail(message, _) => outcome == TemporaryError(message)
  }

  /** Recover, claim the earliest claimable row, handle it, write the outcome back. */
  method RunOnce(repo: JobRepository, worker: string, now: Time)
    returns (claimed: Option<JobId>, ghost outcome: HandlerOutcome, ghost how: Finish, ghost later: Time)
    requires Valid(repo.Value()) && UniqueLive(repo.rows)
    modifies repo
    ensures repo.nextId == old(repo.nextId) && Valid(repo.Value()) && UniqueLive(repo.rows)
    ensures claimed.None? ==>
              && repo.Value() == Recovered(old(repo.Value()), now)
              && forall id :: id in repo.rows ==> !Claimable(repo.rows[id], now)
    ensures claimed.Some? ==>
              var id, before := claimed.value, Recovered(old(repo.Value()), now).rows;
              && id in before && Claimable(before[id], now)
              && (forall i :: i in before && DueRow(before[i], now) ==> NoLaterThan(before[id], before[i]))
              && repo.rows == before[id := HandledRow(before[id], worker, now, how, later)]
              && now <= later && Reported(outcome, how) && TimelyRetry(how, before[id].attempt + 1, later)
  {
    outcome, how, later := Success(""), Succeed(""), now;
    RecoveredKeepsIndex(repo.Value(), now);
    var count := repo.RecoverExpiredLeases(now);
    ghost var before := repo.rows;
    claimed := repo.ClaimNext(worker, DEFAULT_LEASE, now);
    if claimed.None? {
      return;
    }
    var id := claimed.value;
    outcome, how, later := RunClaimed(repo, id, before, worker, now);
  }

  /** The second half of a pass: run the handler of the claimed job, write its outcome back. */
  method RunClaimed(repo: JobRepository, id: JobId, ghost before: map<JobId, Row>, worker: string, now: Time)
    returns (ghost outcome: HandlerOutcome, ghost how: Finish, ghost later: Time)
    requires Valid(repo.Value()) && UniqueLive(before) && id in before && Live(before[id])
    requires repo.rows == before[id := ClaimedRow(before[id], worker, DEFAULT_LEASE, now)]
    modifies repo
    ensures repo.nextId == old(repo.nextId) && Valid(repo.Value()) && UniqueLive(repo.rows)
    ensures repo.rows == before[id := HandledRow(before[id], worker, now, how, later)]
    ensures now <= later && Reported(outcome, how) && TimelyRetry(how, before[id].attempt + 1, later)
  {
    ClaimKeepsIndex(before, id, worker, now);
    var finish, finishedAt;
    finish, finishedAt, outcome := Handle(repo.rows[id].attempt, now);
    FinishedKeepsIndex(repo.Value(), id, finish, finishedAt);
    var ok := repo.Finish(id, finish, finishedAt);
    how, later := finish, finishedAt;
  }

  /** Whatever the handler returns, and when: what is to be written back. */
  method Handle(attempt: nat, now: Time) returns (finish: Finish, finishedAt: Time, ghost ended: HandlerOutcome)
    requires attempt > 0
    ensures now <= finishedAt && Reported(ended, finish) && TimelyRetry(finish, attempt, finishedAt)
  {
    var outcome: HandlerOutcome := *;
    ended := outcome;
    finishedAt :| now <= finishedAt;
    var jitter: Time :| 0 <= jitter < BackoffBase(attempt) / 5;
    var delay := Backoff(attempt, jitter);
    finish := match outcome
      case Success(result) => Succeed(result)
      case PermanentError(message) => Kill(message)
      case TemporaryError(message) => Fail(message, finishedAt + delay);
  }

  lemma ClaimKeepsIndex(rows: map<JobId, Row>, id: JobId, worker: string, now: Time)
    requires UniqueLive(rows) && id in rows && Live(rows[id])
    ensures UniqueLive(rows[id := ClaimedRow(rows[id], worker, DEFAULT_LEASE, now)])
    ensures !KeyTaken(rows[id := ClaimedRow(rows[id], worker, DEFAULT_LEASE, now)], id, rows[id].key)
  {
  }

  /**
   The drain loop ends for all handler outcomes and all clock readings, having
   claimed no more often than the rows had attempts left.
   */
  method Drain(repo: JobRepository, worker: string) returns (handled: nat, ghost last: Time)
    requires Valid(repo.Value()) && UniqueLive(repo.rows)
    modifies repo
    ensures handled + TotalFuel(repo.rows, repo.nextId) <= old(TotalFuel(repo.rows, repo.nextId))
    ensures forall id :: id in repo.rows ==> !Claimable(repo.rows[id], last)
  {
    handled := 0;
    while true
      invariant Valid(repo.Value()) && UniqueLive(repo.rows) && repo.nextId == old(repo.nextId)
      invariant handled + TotalFuel(repo.rows, repo.nextId) <= old(TotalFuel(repo.rows, repo.nextId))
      decreases TotalFuel(repo.rows, repo.nextId)
    {
      var now: Time := *;
      ghost var before := repo.Value();
      var claimed;
      ghost var outcome, how, later;
      claimed, outcome, how, later := RunOnce(repo, worker, now);
      RecoveryKeepsFuel(before, now, repo.nextId);
      if claimed.None? {
        return handled, now;
      }
      ghost var rows := Recovered(before, now).rows;
      FuelUpdate(rows, repo.nextId, claimed.value, HandledRow(rows[claimed.value], worker, now, how, later));
      HandledRowHasLessFuel(rows[claimed.value], worker, DEFAULT_LEASE, now, how, later);
      handled := handled + 1;
    }
  }
}
