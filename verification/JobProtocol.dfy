/**
 Workers, scheduler and queue together: the steps of `RunOnce` and `keepLeaseAlive`
 (internal/jobs/worker.go), of `EnqueueDue` and `RunSchedule`
 (internal/scheduler/service.go), and of other callers of `Enqueue`, in any
 interleaving. A pass of the scheduler lists the schedules in one step and inserts each
 job in a step of its own. Every step carries the clock reading it happens at.
 */
module JobProtocol {
  import opened JobQueue
  import opened Scheduler
  import opened Summaries

  /** The lease of a worker: five minutes. */
  const LEASE: Time := DEFAULT_LEASE

  /** A worker process inside its handler; `renewedAt` is its claim or its last extension. */
  datatype Handler = Handler(job: JobId, renewedAt: Time, marked: bool)

  /** A schedule's turn in a pass of the scheduler: what the pass listed, and when. */
  datatype Pass = Pass(listed: Schedule, listedAt: Time)

  /** `claims` and `expiries` only record history. */
  datatype State = State(
    queue: Queue, handlers: map<nat, Handler>, passes: map<nat, Pass>, lastRun: map<nat, Time>, clock: Time,
    claims: map<JobId, nat>, expiries: map<JobId, nat>)

  /** A fixed time zone per schedule, and the id each worker process signs with. */
  datatype World = World(local: (nat, Time) -> LocalTime, workerId: nat -> string)

  datatype Step =
    | List(pass: nat, row: Schedule)
    | Insert(pass: nat, schedule: nat, at: Time)
    | Submit(request: JobRequest)
    | Recover
    | Claim(p: nat, job: JobId)
    | Extend(p: nat)
    | Mark(p: nat, schedule: nat)
    | Finish(p: nat, how: Finish)
    | Crash(p: nat)

  datatype Event = Event(now: Time, step: Step)

  const START: State := State(Queue(map[], 0), map[], map[], map[], 0, map[], map[])

  function Count(history: map<JobId, nat>, id: JobId): nat {
    if id in history then history[id] else 0
  }

  /** The schedule as a pass reads it from the database. */
  function Listed(s: State, schedule: Schedule, w: World): Schedule {
    Relisted(schedule, s.lastRun, w.local)
  }

  /** The handler of a pipeline job succeeds only by marking its schedule, and marks only then. */
  predicate MayFinish(s: State, h: Handler, how: Finish)
    requires h.job in s.queue.rows
  {
    if how.Succeed? then s.queue.rows[h.job].payload.Pipeline? ==> h.marked else !h.marked
  }

  predicate Enabled(s: State, e: Event) {
    && s.clock <= e.now
    && match e.step
       case List(pass, _) => pass !in s.passes
       case Insert(pass, schedule, at) =>
         pass in s.passes && s.passes[pass].listed.id == schedule && s.passes[pass].listedAt <= at <= e.now
       case Submit(r) => (r.status.None? || r.status.value == Pending) && (r.key.Some? ==> r.key.value.OtherKey?)
       case Recover => true
       case Claim(p, job) => p !in s.handlers && job in s.queue.rows && Claimable(s.queue.rows[job], e.now)
       case Extend(p) => p in s.handlers
       case Mark(p, schedule) =>
         && p in s.handlers && !s.handlers[p].marked
         && s.handlers[p].job in s.queue.rows && s.queue.rows[s.handlers[p].job].payload == Pipeline(schedule)
       case Finish(p, how) => p in s.handlers && s.handlers[p].job in s.queue.rows && MayFinish(s, s.handlers[p], how)
       case Crash(p) => p in s.handlers
  }

  function Apply(s: State, e: Event, w: World): State
    requires Enabled(s, e)
  {
    State(QueueAfter(s, e, w), HandlersAfter(s, e), PassesAfter(s, e, w), LastRunAfter(s, e), e.now,
          ClaimsAfter(s, e), ExpiriesAfter(s, e))
  }

  function QueueAfter(s: State, e: Event, w: World): Queue
    requires Enabled(s, e)
  {
    match e.step
    case Insert(pass, schedule, at) => Offered(s.queue, s.passes[pass].listed, w.local(schedule, at), at, e.now)
    case Submit(r) => Enqueued(s.queue, r, e.now)
    case Recover => Recovered(s.queue, e.now)
    case Claim(p, job) =>
      s.queue.(rows := s.queue.rows[job := ClaimedRow(s.queue.rows[job], w.workerId(p), LEASE, e.now)])
    case Extend(p) => Extended(s.queue, s.handlers[p].job, w.workerId(p), LEASE, e.now)
    case Finish(p, how) => Finished(s.queue, s.handlers[p].job, how, e.now)
    case _ => s.queue
  }

  function HandlersAfter(s: State, e: Event): map<nat, Handler>
    requires Enabled(s, e)
  {
    match e.step
    case Claim(p, job) => s.handlers[p := Handler(job, e.now, false)]
    case Extend(p) => s.handlers[p := s.handlers[p].(renewedAt := e.now)]
    case Mark(p, _) => s.handlers[p := s.handlers[p].(marked := true)]
    case Finish(p, _) => s.handlers - {p}
    case Crash(p) => s.handlers - {p}
    case _ => s.handlers
  }

  function PassesAfter(s: State, e: Event, w: World): map<nat, Pass>
    requires Enabled(s, e)
  {
    match e.step
    case List(pass, row) => s.passes[pass := Pass(Listed(s, row, w), e.now)]
    case Insert(pass, _, _) => s.passes - {pass}
    case _ => s.passes
  }

  function LastRunAfter(s: State, e: Event): map<nat, Time> {
    if e.step.Mark? then s.lastRun[e.step.schedule := e.now] else s.lastRun
  }

  function ClaimsAfter(s: State, e: Event): map<JobId, nat> {
    if e.step.Claim? then s.claims[e.step.job := Count(s.claims, e.step.job) + 1] else s.claims
  }

  function ExpiriesAfter(s: State, e: Event): map<JobId, nat> {
    if e.step.Recover? then
      map id | id in s.queue.rows :: Count(s.expiries, id) + if Expired(s.queue.rows[id], e.now) then 1 else 0
    else s.expiries
  }

  /** Which jobs' lease renewals are relied upon: none, one job's, or those of one schedule's daily jobs. */
  datatype Watch = Nobody | TheJob(id: JobId) | DailyJobs(schedule: nat)

  predicate OfSchedule(row: Row, k: nat) {
    row.key.Some? && row.key.value.DailyKey? && row.key.value.schedule == k
  }

  predicate Watched(s: State, job: JobId, watch: Watch) {
    match watch
    case Nobody => false
    case TheJob(id) => job == id
    case DailyJobs(k) => job in s.queue.rows && OfSchedule(s.queue.rows[job], k)
  }

  /** Every running handler of a watched job renewed its lease less than one lease ago. */
  predicate Timely(s: State, now: Time, watch: Watch) {
    forall p :: p in s.handlers && Watched(s, s.handlers[p].job, watch) ==> now - s.handlers[p].renewedAt < LEASE
  }

  /** Runs in which no process loses the lease of a watched job inside its handler; other leases may be lost at will. */
  ghost predicate Reaches(w: World, run: seq<Event>, s: State, watch: Watch) {
    if run == [] then s == START
    else
      var last := run[|run| - 1];
      exists before :: Reaches(w, run[..|run| - 1], before, watch) && Leads(w, before, last, s, watch)
  }

  predicate Leads(w: World, before: State, e: Event, s: State, watch: Watch) {
    Enabled(before, e) && Timely(before, e.now, watch) && s == Apply(before, e, w)
  }

  // ----- row invariants, under every interleaving

  predicate RowOk(row: Row) {
    && (row.status == Running <==> row.lockedBy.Some?)
    && (row.status == Running <==> row.leaseExpiresAt.Some?)
    && (row.status == Running <==> row.lockedAt.Some?)
    && (row.status in {Completed, Dead} <==> row.finishedAt.Some?)
    && row.maxAttempts > 0
  }

  /** Attempts count claims, and each attempt beyond the maximum was paid for by an expired lease. */
  predicate BudgetOk(row: Row, claims: nat, expiries: nat) {
    && row.attempt == claims
    && row.attempt <= row.maxAttempts + expiries
    && (row.status in {Pending, RetryWait} ==> row.attempt < row.maxAttempts + expiries)
  }

  ghost predicate RowInvariant(s: State) {
    && Valid(s.queue) && UniqueLive(s.queue.rows)
    && (forall id ::
          id in s.queue.rows ==>
            RowOk(s.queue.rows[id]) && BudgetOk(s.queue.rows[id], Count(s.claims, id), Count(s.expiries, id)))
    && (forall id :: id in s.claims ==> id in s.queue.rows)
  }

  lemma EnqueuedRows(s: State, r: JobRequest, now: Time)
    requires RowInvariant(s) && (r.status.None? || r.status.value == Pending)
    ensures RowInvariant(s.(queue := Enqueued(s.queue, r, now)))
  {
    EnqueuedKeepsIndex(s.queue, r, now);
    assert s.queue.nextId !in s.claims;
  }

  /** A step that rewrites one row into a consistent one. */
  lemma ReplacedRow(s: State, t: State, id: JobId)
    requires RowInvariant(s) && id in s.queue.rows && id in t.queue.rows
    requires t.queue == Queue(s.queue.rows[id := t.queue.rows[id]], s.queue.nextId) && UniqueLive(t.queue.rows)
    requires t.expiries == s.expiries && t.claims - {id} == s.claims - {id}
    requires RowOk(t.queue.rows[id]) && BudgetOk(t.queue.rows[id], Count(t.claims, id), Count(t.expiries, id))
    ensures RowInvariant(t)
  {
    forall j | j in t.queue.rows && j != id
      ensures Count(t.claims, j) == Count(s.claims, j)
    {
      assert j in t.claims - {id} <==> j in s.claims - {id};
      assert j in s.claims ==> (t.claims - {id})[j] == (s.claims - {id})[j];
    }
    forall j | j in t.claims
      ensures j in t.queue.rows
    {
      assert j != id ==> j in t.claims - {id};
    }
  }

  lemma ClaimStep(s: State, p: nat, job: JobId, now: Time, w: World)
    requires RowInvariant(s) && Enabled(s, Event(now, Claim(p, job)))
    ensures RowInvariant(Apply(s, Event(now, Claim(p, job)), w))
  {
    var t := Apply(s, Event(now, Claim(p, job)), w);
    ClaimingKeepsIndex(s.queue.rows, job, w.workerId(p), now);
    ReplacedRow(s, t, job);
  }

  lemma ClaimingKeepsIndex(rows: map<JobId, Row>, job: JobId, worker: string, now: Time)
    requires UniqueLive(rows) && job in rows && Live(rows[job])
    ensures UniqueLive(rows[job := ClaimedRow(rows[job], worker, LEASE, now)])
  {
  }

  lemma ExtendStep(s: State, p: nat, now: Time, w: World)
    requires RowInvariant(s) && Enabled(s, Event(now, Extend(p)))
    ensures RowInvariant(Apply(s, Event(now, Extend(p)), w))
  {
    var t, job := Apply(s, Event(now, Extend(p)), w), s.handlers[p].job;
    if job in s.queue.rows {
      ReplacedRow(s, t, job);
    }
  }

  lemma FinishStep(s: State, p: nat, how: Finish, now: Time, w: World)
    requires RowInvariant(s) && Enabled(s, Event(now, Finish(p, how)))
    ensures RowInvariant(Apply(s, Event(now, Finish(p, how)), w))
  {
    var t, job := Apply(s, Event(now, Finish(p, how)), w), s.handlers[p].job;
    FinishedKeepsIndex(s.queue, job, how, now);
    if t.queue != s.queue {
      ReplacedRow(s, t, job);
    }
  }

  lemma RecoverStep(s: State, now: Time, w: World)
    requires RowInvariant(s) && Enabled(s, Event(now, Recover))
    ensures RowInvariant(Apply(s, Event(now, Recover), w))
  {
    RecoveredKeepsIndex(s.queue, now);
  }

  lemma RowStep(s: State, e: Event, w: World)
    requires RowInvariant(s) && Enabled(s, e)
    ensures RowInvariant(Apply(s, e, w))
  {
    match e.step
    case List(_, _) =>
    case Insert(pass, schedule, at) =>
      EnqueuedRows(s, DailyRequest(s.passes[pass].listed, w.local(schedule, at).day, at), e.now);
    case Submit(r) => EnqueuedRows(s, r, e.now);
    case Recover => RecoverStep(s, e.now, w);
    case Claim(p, job) => ClaimStep(s, p, job, e.now, w);
    case Extend(p) => ExtendStep(s, p, e.now, w);
    case Mark(_, _) =>
    case Finish(p, how) => FinishStep(s, p, how, e.now, w);
    case Crash(p) =>
  }

  /** Stale finishers included: a row is running iff it is locked and leased, and never claimed beyond its budget. */
  lemma {:induction false} RowsAreConsistent(w: World, run: seq<Event>, s: State, watch: Watch)
    requires Reaches(w, run, s, watch)
    ensures RowInvariant(s)
    decreases |run|
  {
    if run != [] {
      var n := |run| - 1;
      var before :| Reaches(w, run[..n], before, watch) && Leads(w, before, run[n], s, watch);
      RowsAreConsistent(w, run[..n], before, watch);
      RowStep(before, run[n], w);
    }
  }

  // ----- lease exclusion

  /** Each handler of a watched job runs it under its own lock and lease, and no two share one. */
  ghost predicate LeaseInvariant(s: State, w: World, watch: Watch) {
    && (forall p :: p in s.handlers ==> s.handlers[p].job in s.queue.rows)
    && (forall p :: p in s.handlers && Watched(s, s.handlers[p].job, watch) ==> Owns(s, w, p))
    && (forall p, q :: p in s.handlers && q in s.handlers && p != q && Watched(s, s.handlers[p].job, watch) ==>
          s.handlers[p].job != s.handlers[q].job)
  }

  predicate Owns(s: State, w: World, p: nat)
    requires p in s.handlers
  {
    var h := s.handlers[p];
    && h.job in s.queue.rows
    && s.queue.rows[h.job].status == Running
    && s.queue.rows[h.job].lockedBy == Some(w.workerId(p))
    && s.queue.rows[h.job].leaseExpiresAt == Some(h.renewedAt + LEASE)
  }

  /** What a step does to the row of a handler that is not the one acting. */
  predicate RowKept(s: State, t: State, id: JobId)
    requires id in s.queue.rows
  {
    id in t.queue.rows && t.queue.rows[id] == s.queue.rows[id]
  }

  lemma OthersKept(s: State, e: Event, w: World, id: JobId)
    requires Enabled(s, e) && Valid(s.queue) && id in s.queue.rows
    requires s.queue.rows[id].status == Running && !Expired(s.queue.rows[id], e.now)
    requires e.step.Extend? || e.step.Finish? ==> s.handlers[e.step.p].job != id
    ensures RowKept(s, Apply(s, e, w), id)
  {
  }

  /** A handler after the step was there before or has just claimed its job. */
  lemma HandlerOrigin(s: State, e: Event, w: World, p: nat)
    requires Enabled(s, e) && p in Apply(s, e, w).handlers
    ensures var job := Apply(s, e, w).handlers[p].job;
            (p in s.handlers && s.handlers[p].job == job) || (p !in s.handlers && e.step == Claim(p, job))
  {
  }

  lemma ActorOwns(s: State, e: Event, w: World, p: nat)
    requires Enabled(s, e) && p in Apply(s, e, w).handlers
    requires if p in s.handlers then e.step == Extend(p) && Owns(s, w, p) else e.step.Claim? && e.step.p == p
    ensures Owns(Apply(s, e, w), w, p)
  {
  }

  predicate SameJob(a: Row, b: Row) {
    b.key == a.key && b.payload == a.payload && b.maxAttempts == a.maxAttempts
  }

  lemma FinishedIsSameJob(q: Queue, job: JobId, how: Finish, now: Time, id: JobId)
    requires id in q.rows
    ensures id in Finished(q, job, how, now).rows && SameJob(q.rows[id], Finished(q, job, how, now).rows[id])
  {
  }

  lemma EnqueuedIsSameJob(q: Queue, r: JobRequest, now: Time, id: JobId)
    requires Valid(q) && id in q.rows
    ensures id in Enqueued(q, r, now).rows && SameJob(q.rows[id], Enqueued(q, r, now).rows[id])
  {
  }

  /** No step removes a row or changes its key, payload or maximum. */
  lemma RowsStay(s: State, e: Event, w: World, id: JobId)
    requires Enabled(s, e) && Valid(s.queue) && id in s.queue.rows
    ensures id in Apply(s, e, w).queue.rows && SameJob(s.queue.rows[id], Apply(s, e, w).queue.rows[id])
  {
    match e.step
    case Insert(pass, schedule, at) =>
      EnqueuedIsSameJob(s.queue, DailyRequest(s.passes[pass].listed, w.local(schedule, at).day, at), e.now, id);
    case Submit(r) => EnqueuedIsSameJob(s.queue, r, e.now, id);
    case Finish(p, how) => FinishedIsSameJob(s.queue, s.handlers[p].job, how, e.now, id);
    case _ =>
  }

  lemma OtherOwnerStays(s: State, e: Event, w: World, p: nat, watch: Watch)
    requires LeaseInvariant(s, w, watch) && Enabled(s, e) && Timely(s, e.now, watch) && Valid(s.queue)
    requires p in s.handlers && p in Apply(s, e, w).handlers && e.step != Extend(p)
    requires Watched(s, s.handlers[p].job, watch)
    ensures Owns(Apply(s, e, w), w, p)
  {
    assert Owns(s, w, p);
    OthersKept(s, e, w, s.handlers[p].job);
  }

  lemma OwnersStay(s: State, e: Event, w: World, p: nat, watch: Watch)
    requires LeaseInvariant(s, w, watch) && Enabled(s, e) && Timely(s, e.now, watch) && Valid(s.queue)
    requires p in Apply(s, e, w).handlers && Watched(Apply(s, e, w), Apply(s, e, w).handlers[p].job, watch)
    ensures Owns(Apply(s, e, w), w, p)
  {
    HandlerOrigin(s, e, w, p);
    if p in s.handlers {
      RowsStay(s, e, w, s.handlers[p].job);
      if e.step != Extend(p) {
        OtherOwnerStays(s, e, w, p, watch);
      } else {
        assert Owns(s, w, p);
        ActorOwns(s, e, w, p);
      }
    } else {
      ActorOwns(s, e, w, p);
    }
  }

  /** A claimable row is nobody's, so a claim gives a watched job its only handler. */
  lemma HandlersStayApart(s: State, e: Event, w: World, p: nat, q: nat, watch: Watch)
    requires LeaseInvariant(s, w, watch) && Enabled(s, e) && Valid(s.queue) && p != q
    requires p in Apply(s, e, w).handlers && q in Apply(s, e, w).handlers
    requires Watched(Apply(s, e, w), Apply(s, e, w).handlers[p].job, watch)
    ensures Apply(s, e, w).handlers[p].job != Apply(s, e, w).handlers[q].job
  {
    HandlerOrigin(s, e, w, p);
    HandlerOrigin(s, e, w, q);
    var job := Apply(s, e, w).handlers[p].job;
    KnownBefore(s, e, w, p, watch);
    RowsStay(s, e, w, job);
    assert p in s.handlers ==> Owns(s, w, p);
    assert q in s.handlers && s.handlers[q].job == job ==> Owns(s, w, q);
  }

  lemma KnownBefore(s: State, e: Event, w: World, p: nat, watch: Watch)
    requires LeaseInvariant(s, w, watch) && Enabled(s, e) && p in Apply(s, e, w).handlers
    ensures Apply(s, e, w).handlers[p].job in s.queue.rows
  {
    HandlerOrigin(s, e, w, p);
  }

  lemma LeaseStep(s: State, e: Event, w: World, watch: Watch)
    requires LeaseInvariant(s, w, watch) && Enabled(s, e) && Timely(s, e.now, watch) && Valid(s.queue)
    ensures LeaseInvariant(Apply(s, e, w), w, watch)
  {
    var t := Apply(s, e, w);
    forall p | p in t.handlers
      ensures t.handlers[p].job in t.queue.rows
    {
      KnownBefore(s, e, w, p, watch);
      RowsStay(s, e, w, t.handlers[p].job);
    }
    forall p | p in t.handlers && Watched(t, t.handlers[p].job, watch)
      ensures Owns(t, w, p)
    {
      OwnersStay(s, e, w, p, watch);
    }
    forall p, q | p in t.handlers && q in t.handlers && p != q && Watched(t, t.handlers[p].job, watch)
      ensures t.handlers[p].job != t.handlers[q].job
    {
      HandlersStayApart(s, e, w, p, q, watch);
    }
  }

  lemma {:induction false} TimelyRunsOwn(w: World, run: seq<Event>, s: State, watch: Watch)
    requires Reaches(w, run, s, watch)
    ensures LeaseInvariant(s, w, watch)
    decreases |run|
  {
    if run != [] {
      var n := |run| - 1;
      var before :| Reaches(w, run[..n], before, watch) && Leads(w, before, run[n], s, watch);
      TimelyRunsOwn(w, run[..n], before, watch);
      RowsAreConsistent(w, run[..n], before, watch);
      LeaseStep(before, run[n], w, watch);
    }
  }

  /**
   While the renewals of this job's handlers are less than a lease apart, whatever
   happens to other jobs: recovery passes the job by, nobody else can claim it, at most
   one process handles it, and the process that finishes is the one that holds the lock.
   */
  lemma LeaseExclusion(w: World, run: seq<Event>, s: State, p: nat, now: Time)
    requires p in s.handlers && Reaches(w, run, s, TheJob(s.handlers[p].job))
    requires Timely(s, now, TheJob(s.handlers[p].job))
    ensures var job := s.handlers[p].job;
            && job in s.queue.rows
            && Recovered(s.queue, now).rows[job] == s.queue.rows[job]
            && !Claimable(s.queue.rows[job], now)
            && s.queue.rows[job].lockedBy == Some(w.workerId(p))
            && forall q :: q in s.handlers && s.handlers[q].job == job ==> q == p
  {
    TimelyRunsOwn(w, run, s, TheJob(s.handlers[p].job));
    assert Owns(s, w, p);
  }

  /** A job is claimed at most max_attempts times, once more for each lease it lost. */
  lemma ClaimsAreBounded(w: World, run: seq<Event>, s: State, id: JobId)
    requires Reaches(w, run, s, Nobody) && id in s.queue.rows
    ensures Count(s.claims, id) <= s.queue.rows[id].maxAttempts + Count(s.expiries, id)
    ensures Count(s.expiries, id) == 0 ==> s.queue.rows[id].attempt <= s.queue.rows[id].maxAttempts
  {
    RowsAreConsistent(w, run, s, Nobody);
  }

  // ----- draining, with any number of workers

  function ClaimsIn(run: seq<Event>): nat {
    if run == [] then 0 else ClaimsIn(run[..|run| - 1]) + if run[|run| - 1].step.Claim? then 1 else 0
  }

  function Total(history: map<JobId, nat>, n: nat): nat {
    if n == 0 then 0 else Total(history, n - 1) + Count(history, n - 1)
  }

  /** The attempts all rows below `n` are entitled to. */
  function TotalMaximum(rows: map<JobId, Row>, n: nat): int {
    if n == 0 then 0 else TotalMaximum(rows, n - 1) + if n - 1 in rows then rows[n - 1].maxAttempts else 0
  }

  lemma {:induction false} TotalOfOneMore(history: map<JobId, nat>, id: JobId, n: nat)
    ensures Total(history[id := Count(history, id) + 1], n) == Total(history, n) + if id < n then 1 else 0
  {
    if n > 0 {
      TotalOfOneMore(history, id, n - 1);
    }
  }

  lemma {:induction false} TotalBeyond(history: map<JobId, nat>, n: nat, m: nat)
    requires n <= m && forall id :: id in history ==> id < n
    ensures Total(history, m) == Total(history, n)
  {
    if n < m {
      TotalBeyond(history, n, m - 1);
    }
  }

  /** Every claim of a run is in the histories. */
  lemma {:induction false} ClaimsAreRecorded(w: World, run: seq<Event>, s: State, watch: Watch)
    requires Reaches(w, run, s, watch)
    ensures ClaimsIn(run) == Total(s.claims, s.queue.nextId)
    decreases |run|
  {
    if run != [] {
      var n := |run| - 1;
      var before :| Reaches(w, run[..n], before, watch) && Leads(w, before, run[n], s, watch);
      ClaimsAreRecorded(w, run[..n], before, watch);
      RowsAreConsistent(w, run[..n], before, watch);
      RecordStep(before, run[n], w);
    }
  }

  lemma RecordStep(s: State, e: Event, w: World)
    requires RowInvariant(s) && Enabled(s, e)
    ensures var t := Apply(s, e, w);
            Total(t.claims, t.queue.nextId) == Total(s.claims, s.queue.nextId) + if e.step.Claim? then 1 else 0
  {
    var t := Apply(s, e, w);
    if e.step.Claim? {
      TotalOfOneMore(s.claims, e.step.job, s.queue.nextId);
    } else {
      assert t.claims == s.claims && s.queue.nextId <= t.queue.nextId;
      TotalBeyond(s.claims, s.queue.nextId, t.queue.nextId);
    }
  }

  lemma {:induction false} TotalsWithinBudget(s: State, n: nat)
    requires RowInvariant(s)
    ensures Total(s.claims, n) <= TotalMaximum(s.queue.rows, n) + Total(s.expiries, n)
  {
    if n > 0 {
      TotalsWithinBudget(s, n - 1);
    }
  }

  /**
   Over every interleaving of any number of workers: all claims together stay within all
   maximums plus all lost leases.
   */
  lemma ClaimsWithinBudget(w: World, run: seq<Event>, s: State)
    requires Reaches(w, run, s, Nobody)
    ensures ClaimsIn(run) <= TotalMaximum(s.queue.rows, s.queue.nextId) + Total(s.expiries, s.queue.nextId)
  {
    ClaimsAreRecorded(w, run, s, Nobody);
    RowsAreConsistent(w, run, s, Nobody);
    TotalsWithinBudget(s, s.queue.nextId);
  }

  /** Nothing new is enqueued. */
  predicate Closed(run: seq<Event>) {
    forall k :: 0 <= k < |run| ==> !run[k].step.Insert? && !run[k].step.Submit?
  }

  lemma {:induction false} ClaimsInConcat(a: seq<Event>, b: seq<Event>)
    ensures ClaimsIn(a + b) == ClaimsIn(a) + ClaimsIn(b)
  {
    if b == [] {
      assert a + b == a;
    } else {
      assert (a + b)[..|a + b| - 1] == a + b[..|b| - 1];
      ClaimsInConcat(a, b[..|b| - 1]);
    }
  }

  lemma {:induction false} OneStatePerRun(w: World, run: seq<Event>, s: State, t: State, watch: Watch)
    requires Reaches(w, run, s, watch) && Reaches(w, run, t, watch)
    ensures s == t
    decreases |run|
  {
    if run != [] {
      var n := |run| - 1;
      var a :| Reaches(w, run[..n], a, watch) && Leads(w, a, run[n], s, watch);
      var b :| Reaches(w, run[..n], b, watch) && Leads(w, b, run[n], t, watch);
      OneStatePerRun(w, run[..n], a, b, watch);
    }
  }

  lemma NoStep(w: World, run: seq<Event>, s: State, more: seq<Event>, t: State, watch: Watch)
    requires Reaches(w, run, s, watch) && Reaches(w, run + more, t, watch) && more == []
    ensures s == t
  {
    assert run + more == run;
    OneStatePerRun(w, run, s, t, watch);
  }

  /** The state before the last step of a longer run. */
  lemma LastStep(w: World, run: seq<Event>, more: seq<Event>, t: State, watch: Watch) returns (before: State)
    requires Reaches(w, run + more, t, watch) && more != []
    ensures Reaches(w, run + more[..|more| - 1], before, watch) && Leads(w, before, more[|more| - 1], t, watch)
  {
    var whole := run + more;
    assert whole[..|whole| - 1] == run + more[..|more| - 1];
    before :| Reaches(w, whole[..|whole| - 1], before, watch) && Leads(w, before, whole[|whole| - 1], t, watch);
  }

  predicate SameMaximums(s: State, t: State) {
    && t.queue.nextId == s.queue.nextId && t.queue.rows.Keys == s.queue.rows.Keys
    && forall id :: id in s.queue.rows ==> t.queue.rows[id].maxAttempts == s.queue.rows[id].maxAttempts
  }

  lemma {:induction false} ClosedRunsAddNothing(w: World, run: seq<Event>, s: State, more: seq<Event>, t: State)
    requires Reaches(w, run, s, Nobody) && Reaches(w, run + more, t, Nobody) && Closed(more)
    ensures SameMaximums(s, t)
    decreases |more|
  {
    if more == [] {
      NoStep(w, run, s, more, t, Nobody);
    } else {
      var n := |more| - 1;
      var before := LastStep(w, run, more, t, Nobody);
      ClosedRunsAddNothing(w, run, s, more[..n], before);
      ClosedStep(before, more[n], w);
    }
  }

  lemma ClosedStep(s: State, e: Event, w: World)
    requires Enabled(s, e) && !e.step.Insert? && !e.step.Submit?
    ensures SameMaximums(s, Apply(s, e, w))
  {
  }

  lemma {:induction false} SameTotalMaximum(s: State, t: State, n: nat)
    requires SameMaximums(s, t)
    ensures TotalMaximum(t.queue.rows, n) == TotalMaximum(s.queue.rows, n)
  {
    if n > 0 {
      SameTotalMaximum(s, t, n - 1);
    }
  }

  /**
   Draining ends: once nothing new is enqueued, all workers together make no more claims
   than there were attempts left, plus the leases lost, however handlers end and
   whatever interleaves. Each claiming pass of a worker is one of these claims.
   */
  lemma DrainingEnds(w: World, run: seq<Event>, s: State, more: seq<Event>, t: State)
    requires Reaches(w, run, s, Nobody) && Reaches(w, run + more, t, Nobody) && Closed(more)
    ensures var n := s.queue.nextId;
            && t.queue.nextId == n
            && ClaimsIn(more) <= TotalMaximum(s.queue.rows, n) - Total(s.claims, n) + Total(t.expiries, n)
  {
    ClaimsInConcat(run, more);
    ClaimsAreRecorded(w, run, s, Nobody);
    ClaimsWithinBudget(w, run + more, t);
    ClosedRunsAddNothing(w, run, s, more, t);
    SameTotalMaximum(s, t, s.queue.nextId);
  }

  // ----- runs that reach their bounds

  lemma OneMore(w: World, run: seq<Event>, s: State, e: Event, watch: Watch)
    requires Reaches(w, run, s, watch) && Enabled(s, e) && Timely(s, e.now, watch)
    ensures Reaches(w, run + [e], Apply(s, e, w), watch)
  {
    var longer := run + [e];
    assert longer[..|longer| - 1] == run;
    assert Reaches(w, longer[..|longer| - 1], s, watch) && Leads(w, s, longer[|longer| - 1], Apply(s, e, w), watch);
  }

  /** Job 0 waits to be claimed, after `a` attempts and `e` lost leases. */
  predicate Waits(s: State, m: int, a: nat, e: nat) {
    && s.queue.rows.Keys == {0} && s.handlers == map[]
    && s.queue.rows[0].maxAttempts == m && s.queue.rows[0].attempt == a && s.queue.rows[0].key == None
    && Claimable(s.queue.rows[0], s.clock)
    && Count(s.expiries, 0) == e
  }

  lemma FailOnce(w: World, run: seq<Event>, s: State, m: int, a: nat, e: nat) returns (run': seq<Event>, s': State)
    requires Reaches(w, run, s, Nobody) && Waits(s, m, a, e) && a + 1 < m
    ensures Reaches(w, run', s', Nobody) && Waits(s', m, a + 1, e)
  {
    run', s' := ClaimOnce(w, run, s, m, a, e);
    FailWaits(w, s', m, a + 1, e);
    run', s' := Play(w, run', s', Event(s'.clock, Finish(1, Fail("", s'.clock))), Nobody);
  }

  lemma FailWaits(w: World, s: State, m: int, a: nat, e: nat)
    requires Leased(s, m, a, e, false) && a < m
    ensures Enabled(s, Event(s.clock, Finish(1, Fail("", s.clock))))
    ensures Waits(Apply(s, Event(s.clock, Finish(1, Fail("", s.clock))), w), m, a, e)
  {
  }

  /** Job 0 is locked and leased, by process 1 or by one that is gone. */
  predicate Leased(s: State, m: int, a: nat, e: nat, gone: bool) {
    && s.queue.rows.Keys == {0} && s.handlers == (if gone then map[] else map[1 := Handler(0, s.clock, false)])
    && s.queue.rows[0].maxAttempts == m && s.queue.rows[0].attempt == a && s.queue.rows[0].key == None
    && s.queue.rows[0].status == Running && s.queue.rows[0].leaseExpiresAt == Some(s.clock + LEASE)
    && Count(s.expiries, 0) == e
  }

  lemma ClaimLeases(w: World, s: State, m: int, a: nat, e: nat)
    requires Waits(s, m, a, e)
    ensures Enabled(s, Event(s.clock, Claim(1, 0)))
    ensures Leased(Apply(s, Event(s.clock, Claim(1, 0)), w), m, a + 1, e, false)
  {
  }

  lemma ClaimOnce(w: World, run: seq<Event>, s: State, m: int, a: nat, e: nat) returns (run': seq<Event>, s': State)
    requires Reaches(w, run, s, Nobody) && Waits(s, m, a, e)
    ensures Reaches(w, run', s', Nobody) && Leased(s', m, a + 1, e, false)
  {
    ClaimLeases(w, s, m, a, e);
    run', s' := Play(w, run, s, Event(s.clock, Claim(1, 0)), Nobody);
  }

  lemma CrashOnce(w: World, run: seq<Event>, s: State, m: int, a: nat, e: nat) returns (run': seq<Event>, s': State)
    requires Reaches(w, run, s, Nobody) && Leased(s, m, a, e, false)
    ensures Reaches(w, run', s', Nobody) && Leased(s', m, a, e, true)
  {
    run', s' := Play(w, run, s, Event(s.clock, Crash(1)), Nobody);
  }

  lemma ExpireOnce(w: World, run: seq<Event>, s: State, m: int, a: nat, e: nat) returns (run': seq<Event>, s': State)
    requires Reaches(w, run, s, Nobody) && Waits(s, m, a, e)
    ensures Reaches(w, run', s', Nobody) && Waits(s', m, a + 1, e + 1)
  {
    run', s' := ClaimOnce(w, run, s, m, a, e);
    run', s' := CrashOnce(w, run', s', m, a + 1, e);
    run', s' := Play(w, run', s', Event(s'.clock + LEASE + 1, Recover), Nobody);
  }

  lemma {:induction false} WaitsAfter(w: World, m: int, a: nat, e: nat) returns (run: seq<Event>, s: State)
    requires a < m
    ensures Reaches(w, run, s, Nobody) && Waits(s, m, a + e, e)
    decreases a + e
  {
    if e > 0 {
      run, s := WaitsAfter(w, m, a, e - 1);
      run, s := ExpireOnce(w, run, s, m, a + e - 1, e - 1);
    } else if a > 0 {
      run, s := WaitsAfter(w, m, a - 1, 0);
      run, s := FailOnce(w, run, s, m, a - 1, 0);
    } else {
      var request := JobRequest(Opaque(""), None, m, None, None);
      run, s := Play(w, [], START, Event(0, Submit(request)), Nobody);
      assert s.queue.rows == map[0 := NewRow(request, 0)];
    }
  }

  /** The bound on attempts is tight: for every maximum and every number of lost leases some run reaches it. */
  lemma ExpiryExceedsMaximum(w: World, m: int, e: nat) returns (run: seq<Event>, s: State)
    requires m > 0
    ensures Reaches(w, run, s, Nobody) && 0 in s.queue.rows && s.queue.rows[0].maxAttempts == m
    ensures s.queue.rows[0].attempt == m + e && Count(s.expiries, 0) == e
  {
    run, s := WaitsAfter(w, m, m - 1, e);
    run, s := ClaimOnce(w, run, s, m, m - 1 + e, e);
  }

  lemma Play(w: World, run: seq<Event>, s: State, e: Event, watch: Watch) returns (run': seq<Event>, s': State)
    requires Reaches(w, run, s, watch) && Enabled(s, e) && Timely(s, e.now, watch)
    ensures run' == run + [e] && s' == Apply(s, e, w) && Reaches(w, run', s', watch)
  {
    OneMore(w, run, s, e, watch);
    run', s' := run + [e], Apply(s, e, w);
  }
}
