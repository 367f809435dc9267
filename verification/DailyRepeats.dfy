/**
 Why `DailyRuns.AtMostOnePerDay` has both its conditions: a process that loses its lease,
 and a pass whose listing is out of date when it inserts.
 */
module DailyRepeats {
  import opened DailyRuns
  import opened JobProtocol
  import opened JobQueue
  import opened Scheduler
  import opened Summaries

  /** A row of the daily key of schedule 7 and day 0. */
  predicate OfSeven(row: Row, status: Status) {
    row.status == status && row.key == Some(DailyKey(7, 0)) && row.payload == Pipeline(7)
  }

  const SEVEN := Schedule(7, true, Some(0), None, None, None)

  /** All days are day 0. */
  ghost predicate OneDay(w: World) {
    forall k: nat, t: Time :: w.local(k, t) == LocalTime(0, 0)
  }

  // ----- a process that loses its lease

  predicate Unmarked(run: seq<Event>) {
    forall i :: 0 <= i < |run| ==> !Marks(run[i], 7)
  }

  /** A run without old listings. */
  ghost predicate Lasts(w: World, run: seq<Event>, s: State) {
    Reaches(w, run, s, Nobody) && Undivided(run, 7)
  }

  lemma StaysUndivided(run: seq<Event>, e: Event)
    requires Undivided(run, 7) && (Unmarked(run) || !e.step.Insert?)
    ensures Undivided(run + [e], 7)
  {
    var longer := run + [e];
    forall m | 0 <= m < |longer|
      ensures UndividedAt(longer, m, 7)
    {
      if m < |run| {
        assert UndividedAt(run, m, 7) && longer[..m] == run[..m];
      } else {
        assert longer[..m] == run;
      }
    }
  }

  lemma Go(w: World, run: seq<Event>, s: State, e: Event) returns (run': seq<Event>, s': State)
    requires Lasts(w, run, s) && Enabled(s, e) && (Unmarked(run) || !e.step.Insert?)
    ensures Lasts(w, run', s') && s' == Apply(s, e, w)
    ensures Unmarked(run) && !e.step.Mark? ==> Unmarked(run')
  {
    StaysUndivided(run, e);
    run', s' := Play(w, run, s, e, Nobody);
  }

  lemma FirstClaim(w: World) returns (run: seq<Event>, s: State)
    requires OneDay(w)
    ensures Lasts(w, run, s) && Unmarked(run) && s.queue.rows.Keys == {0} && s.queue.nextId == 1
    ensures OfSeven(s.queue.rows[0], Running) && s.queue.rows[0].leaseExpiresAt == Some(LEASE)
    ensures s.handlers == map[1 := Handler(0, 0, false)] && s.passes == map[] && s.lastRun == map[] && s.clock == 0
  {
    run, s := Go(w, [], START, Event(0, List(1, SEVEN)));
    run, s := Go(w, run, s, Event(0, Insert(1, 7, 0)));
    assert s.queue.rows == map[0 := NewRow(DailyRequest(SEVEN, 0, 0), 0)];
    run, s := Go(w, run, s, Event(0, Claim(1, 0)));
  }

  lemma LeaseExpires(w: World) returns (run: seq<Event>, s: State)
    requires OneDay(w)
    ensures Lasts(w, run, s) && Unmarked(run) && s.queue.rows.Keys == {0} && s.queue.nextId == 1
    ensures OfSeven(s.queue.rows[0], RetryWait) && s.queue.rows[0].availableAt == LEASE + 1
    ensures s.handlers == map[1 := Handler(0, 0, false)] && s.passes == map[] && s.lastRun == map[]
    ensures s.clock == LEASE + 1
  {
    run, s := FirstClaim(w);
    run, s := Go(w, run, s, Event(LEASE + 1, Recover));
  }

  lemma SecondClaim(w: World) returns (run: seq<Event>, s: State)
    requires OneDay(w)
    ensures Lasts(w, run, s) && Unmarked(run) && s.queue.rows.Keys == {0} && s.queue.nextId == 1
    ensures OfSeven(s.queue.rows[0], Running)
    ensures s.handlers.Keys == {1, 2} && s.handlers[1] == Handler(0, 0, false)
    ensures s.handlers[2] == Handler(0, LEASE + 1, false)
    ensures s.passes == map[] && s.lastRun == map[] && s.clock == LEASE + 1
  {
    run, s := LeaseExpires(w);
    run, s := Go(w, run, s, Event(LEASE + 1, Claim(2, 0)));
  }

  /** Process 1 is still inside its handler while process 2 has already given the job up. */
  lemma LeaseIsLost(w: World) returns (run: seq<Event>, s: State)
    requires OneDay(w)
    ensures Lasts(w, run, s) && Unmarked(run) && s.queue.rows.Keys == {0} && s.queue.nextId == 1
    ensures OfSeven(s.queue.rows[0], Dead)
    ensures s.handlers == map[1 := Handler(0, 0, false)] && s.passes == map[] && s.lastRun == map[]
    ensures s.clock == LEASE + 1
  {
    run, s := SecondClaim(w);
    run, s := Go(w, run, s, Event(LEASE + 1, Finish(2, Kill("invalid user input"))));
    assert s.handlers == map[1 := Handler(0, 0, false)];
  }

  lemma Replaced(w: World) returns (run: seq<Event>, s: State)
    requires OneDay(w)
    ensures Lasts(w, run, s) && s.queue.rows.Keys == {0, 1} && s.clock == LEASE + 1
    ensures s.handlers == map[1 := Handler(0, 0, false)]
    ensures OfSeven(s.queue.rows[0], Dead) && OfSeven(s.queue.rows[1], Pending)
    ensures s.queue.rows[1].availableAt == LEASE + 1
  {
    run, s := LeaseIsLost(w);
    run, s := Go(w, run, s, Event(LEASE + 1, List(1, SEVEN)));
    run, s := Go(w, run, s, Event(LEASE + 1, Insert(1, 7, LEASE + 1)));
    assert s.queue.rows[1] == NewRow(DailyRequest(SEVEN, 0, LEASE + 1), LEASE + 1);
  }

  lemma ReplacedThenCompleted(w: World) returns (run: seq<Event>, s: State)
    requires OneDay(w)
    ensures Lasts(w, run, s) && s.queue.rows.Keys == {0, 1} && s.clock == LEASE + 1 && s.handlers == map[]
    ensures OfSeven(s.queue.rows[0], Completed) && OfSeven(s.queue.rows[1], Pending)
    ensures s.queue.rows[1].availableAt == LEASE + 1
  {
    run, s := LateMark(w);
    run, s := Go(w, run, s, Event(LEASE + 1, Finish(1, Succeed(""))));
  }

  lemma LateMark(w: World) returns (run: seq<Event>, s: State)
    requires OneDay(w)
    ensures Lasts(w, run, s) && s.queue.rows.Keys == {0, 1} && s.clock == LEASE + 1
    ensures s.handlers == map[1 := Handler(0, 0, true)]
    ensures OfSeven(s.queue.rows[0], Dead) && OfSeven(s.queue.rows[1], Pending)
    ensures s.queue.rows[1].availableAt == LEASE + 1
  {
    run, s := Replaced(w);
    run, s := Go(w, run, s, Event(LEASE + 1, Mark(1, 7)));
  }

  lemma ThirdClaim(w: World) returns (run: seq<Event>, s: State)
    requires OneDay(w)
    ensures Lasts(w, run, s) && s.queue.rows.Keys == {0, 1} && s.clock == LEASE + 1
    ensures s.handlers == map[3 := Handler(1, LEASE + 1, false)]
    ensures OfSeven(s.queue.rows[0], Completed) && OfSeven(s.queue.rows[1], Running)
  {
    run, s := ReplacedThenCompleted(w);
    run, s := Go(w, run, s, Event(LEASE + 1, Claim(3, 1)));
  }

  /**
   A process that outlives its lease can complete a job others have given up on, next
   to the job that replaced it: two completed rows for one schedule and day.
   */
  lemma LostLeaseCompletesTwice(w: World) returns (run: seq<Event>, s: State)
    requires OneDay(w)
    ensures Reaches(w, run, s, Nobody) && Undivided(run, 7) && MonotoneDays(w, 7)
    ensures 0 in s.queue.rows && OfSeven(s.queue.rows[0], Completed)
    ensures 1 in s.queue.rows && OfSeven(s.queue.rows[1], Completed)
  {
    run, s := ThirdClaim(w);
    run, s := Go(w, run, s, Event(LEASE + 1, Mark(3, 7)));
    run, s := Go(w, run, s, Event(LEASE + 1, Finish(3, Succeed(""))));
  }

  // ----- a pass with an old listing

  /** At time 0: nobody is handling anything. */
  predicate Idle(s: State) {
    s.handlers == map[] && s.clock == 0
  }

  /** At time 0: process `p` is handling the job of schedule 7. */
  predicate Busy(s: State, p: nat, job: JobId, marked: bool) {
    && s.handlers == map[p := Handler(job, 0, marked)]
    && s.clock == 0
    && job in s.queue.rows
    && OfSeven(s.queue.rows[job], Running)
  }

  /** Only this row changed. */
  predicate OnlyRow(s: State, t: State, job: JobId) {
    && job in t.queue.rows && t.passes == s.passes
    && t.queue == Queue(s.queue.rows[job := t.queue.rows[job]], s.queue.nextId)
  }

  /** Two passes have listed schedule 7 before any job of the day exists. */
  lemma TwoListings(w: World) returns (run: seq<Event>, s: State)
    requires OneDay(w)
    ensures Reaches(w, run, s, DailyJobs(7)) && Idle(s) && s.queue == Queue(map[], 0)
    ensures s.passes == map[1 := Pass(SEVEN, 0), 2 := Pass(SEVEN, 0)]
  {
    run, s := Play(w, [], START, Event(0, List(1, SEVEN)), DailyJobs(7));
    run, s := Play(w, run, s, Event(0, List(2, SEVEN)), DailyJobs(7));
  }

  lemma ClaimSeven(w: World, run: seq<Event>, s: State, p: nat, job: JobId) returns (run': seq<Event>, s': State)
    requires Reaches(w, run, s, DailyJobs(7)) && Idle(s) && job in s.queue.rows
    requires OfSeven(s.queue.rows[job], Pending) && s.queue.rows[job].availableAt == 0
    ensures Reaches(w, run', s', DailyJobs(7)) && Busy(s', p, job, false) && OnlyRow(s, s', job)
  {
    run', s' := Play(w, run, s, Event(0, Claim(p, job)), DailyJobs(7));
  }

  lemma MarkSeven(w: World, run: seq<Event>, s: State, p: nat, job: JobId) returns (run': seq<Event>, s': State)
    requires Reaches(w, run, s, DailyJobs(7)) && Busy(s, p, job, false)
    ensures Reaches(w, run', s', DailyJobs(7)) && Busy(s', p, job, true) && OnlyRow(s, s', job)
  {
    var e := Event(0, Mark(p, 7));
    assert Enabled(s, e) && Busy(Apply(s, e, w), p, job, true);
    run', s' := Play(w, run, s, e, DailyJobs(7));
  }

  lemma FinishSeven(w: World, run: seq<Event>, s: State, p: nat, job: JobId) returns (run': seq<Event>, s': State)
    requires Reaches(w, run, s, DailyJobs(7)) && Busy(s, p, job, true)
    ensures Reaches(w, run', s', DailyJobs(7)) && Idle(s') && OnlyRow(s, s', job)
    ensures OfSeven(s'.queue.rows[job], Completed)
  {
    run', s' := Play(w, run, s, Event(0, Finish(p, Succeed(""))), DailyJobs(7));
    assert map[p := Handler(job, 0, true)] - {p} == map[];
  }

  lemma OnlyRowTwice(a: State, b: State, c: State, job: JobId)
    requires OnlyRow(a, b, job) && OnlyRow(b, c, job)
    ensures OnlyRow(a, c, job)
  {
  }

  /** One process takes a waiting daily job through its handler, well within the lease. */
  lemma HandleAtOnce(w: World, run: seq<Event>, s: State, p: nat, job: JobId) returns (run': seq<Event>, s': State)
    requires Reaches(w, run, s, DailyJobs(7)) && Idle(s) && job in s.queue.rows
    requires OfSeven(s.queue.rows[job], Pending) && s.queue.rows[job].availableAt == 0
    ensures Reaches(w, run', s', DailyJobs(7)) && Idle(s') && OnlyRow(s, s', job)
    ensures OfSeven(s'.queue.rows[job], Completed)
  {
    var claimed, marked;
    run', claimed := ClaimSeven(w, run, s, p, job);
    run', marked := MarkSeven(w, run', claimed, p, job);
    run', s' := FinishSeven(w, run', marked, p, job);
    OnlyRowTwice(s, claimed, marked, job);
    OnlyRowTwice(s, marked, s', job);
  }

  lemma InsertSeven(w: World, s: State, pass: nat)
    requires OneDay(w) && Idle(s) && pass in s.passes && s.passes[pass] == Pass(SEVEN, 0)
    requires forall id :: id in s.queue.rows ==> !Live(s.queue.rows[id])
    ensures var e := Event(0, Insert(pass, 7, 0)); var row := NewRow(DailyRequest(SEVEN, 0, 0), 0);
            && Enabled(s, e) && Idle(Apply(s, e, w)) && Apply(s, e, w).passes == s.passes - {pass}
            && Apply(s, e, w).queue == Queue(s.queue.rows[s.queue.nextId := row], s.queue.nextId + 1)
  {
  }

  lemma FirstJobIsDone(w: World) returns (run: seq<Event>, s: State)
    requires OneDay(w)
    ensures Reaches(w, run, s, DailyJobs(7)) && Idle(s) && s.passes == map[1 := Pass(SEVEN, 0)]
    ensures s.queue.nextId == 1 && s.queue.rows.Keys == {0} && OfSeven(s.queue.rows[0], Completed)
  {
    run, s := TwoListings(w);
    InsertSeven(w, s, 2);
    run, s := Play(w, run, s, Event(0, Insert(2, 7, 0)), DailyJobs(7));
    assert s.passes == map[1 := Pass(SEVEN, 0)];
    run, s := HandleAtOnce(w, run, s, 1, 0);
  }

  /**
   Every lease is renewed in time, and still: the other pass inserts from the listing it
   made before the day's job was run, and schedule 7 runs twice on day 0.
   */
  lemma StaleListingCompletesTwice(w: World) returns (run: seq<Event>, s: State)
    requires OneDay(w)
    ensures Reaches(w, run, s, DailyJobs(7)) && MonotoneDays(w, 7)
    ensures 0 in s.queue.rows && OfSeven(s.queue.rows[0], Completed)
    ensures 1 in s.queue.rows && OfSeven(s.queue.rows[1], Completed)
  {
    run, s := FirstJobIsDone(w);
    InsertSeven(w, s, 1);
    run, s := Play(w, run, s, Event(0, Insert(1, 7, 0)), DailyJobs(7));
    run, s := HandleAtOnce(w, run, s, 1, 1);
  }
}
