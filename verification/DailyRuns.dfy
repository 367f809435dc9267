/**
 At most one completed job for a schedule and local day: what `scheduleDeduplicationKey`
 of internal/scheduler/service.go is for. It holds while leases are renewed in time and
 no run of the schedule is marked between a pass's listing and its insert; both
 conditions are needed.
 */
module DailyRuns {
  import opened JobProtocol
  import opened JobQueue
  import opened Scheduler
  import opened Summaries

  /** The schedule's local day never goes back. */
  ghost predicate MonotoneDays(w: World, k: nat) {
    forall a: Time, b: Time {:trigger w.local(k, a), w.local(k, b)} :: a <= b ==> w.local(k, a).day <= w.local(k, b).day
  }

  predicate RanBy(s: State, w: World, k: nat, day: int) {
    k in s.lastRun && day <= w.local(k, s.lastRun[k]).day
  }

  // ----- what every timely run keeps, stale passes included

  /**
   A daily row of schedule `k` runs it, and its day has begun; once completed, the schedule has
   run on or after that day.
   */
  predicate DailyRowOk(s: State, w: World, row: Row, k: nat) {
    OfSchedule(row, k) ==>
      && row.payload == Pipeline(k) && row.key.value.day <= w.local(k, s.clock).day
      && (row.status == Completed ==> RanBy(s, w, k, row.key.value.day))
  }

  predicate MarkedRan(s: State, w: World, h: Handler, k: nat) {
    h.marked && h.job in s.queue.rows && OfSchedule(s.queue.rows[h.job], k) ==>
      RanBy(s, w, k, s.queue.rows[h.job].key.value.day)
  }

  /** A pass lists what is past. */
  predicate PassOk(s: State, w: World, pass: Pass, k: nat) {
    pass.listed.id == k ==>
      && pass.listedAt <= s.clock
      && (pass.listed.lastRunDay.Some? ==> pass.listed.lastRunDay.value <= w.local(k, pass.listedAt).day)
  }

  ghost predicate DailyInvariant(s: State, w: World, k: nat) {
    && (k in s.lastRun ==> s.lastRun[k] <= s.clock)
    && (forall id :: id in s.queue.rows ==> DailyRowOk(s, w, s.queue.rows[id], k))
    && (forall p :: p in s.handlers ==> MarkedRan(s, w, s.handlers[p], k))
    && (forall q :: q in s.passes ==> PassOk(s, w, s.passes[q], k))
  }

  predicate LaterRun(s: State, t: State, k: nat) {
    (k in s.lastRun ==> k in t.lastRun && s.lastRun[k] <= t.lastRun[k]) && (k in t.lastRun ==> t.lastRun[k] <= t.clock)
  }

  /** What a step that completes nothing may do to a row of the schedule. */
  predicate Carried(a: Row, b: Row, k: nat) {
    && a.key == b.key && a.payload == b.payload
    && (OfSchedule(a, k) ==>
          (b.status == Completed <==> a.status == Completed) && (a.status == Dead ==> b.status == Dead))
  }

  lemma RanByStays(s: State, t: State, w: World, k: nat, day: int)
    requires MonotoneDays(w, k) && LaterRun(s, t, k) && RanBy(s, w, k, day)
    ensures RanBy(t, w, k, day)
  {
    assert w.local(k, s.lastRun[k]).day <= w.local(k, t.lastRun[k]).day;
  }

  lemma DailyRowStays(s: State, t: State, w: World, k: nat, a: Row, b: Row)
    requires MonotoneDays(w, k) && LaterRun(s, t, k) && s.clock <= t.clock && DailyRowOk(s, w, a, k) && Carried(a, b, k)
    ensures DailyRowOk(t, w, b, k)
  {
    assert w.local(k, s.clock).day <= w.local(k, t.clock).day;
    if OfSchedule(a, k) && a.status == Completed {
      RanByStays(s, t, w, k, a.key.value.day);
    }
  }

  lemma MarkedStays(s: State, t: State, w: World, k: nat, h: Handler, after: Handler)
    requires MonotoneDays(w, k) && LaterRun(s, t, k) && MarkedRan(s, w, h, k)
    requires after.job == h.job && (after.marked ==> h.marked)
    requires h.job in s.queue.rows && h.job in t.queue.rows && t.queue.rows[h.job].key == s.queue.rows[h.job].key
    ensures MarkedRan(t, w, after, k)
  {
    if h.marked && OfSchedule(s.queue.rows[h.job], k) {
      RanByStays(s, t, w, k, s.queue.rows[h.job].key.value.day);
    }
  }

  predicate NoNewMarks(s: State, t: State) {
    forall p :: p in t.handlers && t.handlers[p].marked ==>
      p in s.handlers && s.handlers[p].marked && s.handlers[p].job == t.handlers[p].job
  }

  predicate NoNewPasses(s: State, t: State) {
    s.clock <= t.clock && forall q :: q in t.passes ==> q in s.passes && t.passes[q] == s.passes[q]
  }

  predicate Placed(s: State) {
    forall p :: p in s.handlers ==> s.handlers[p].job in s.queue.rows
  }

  lemma HandlersStay(s: State, t: State, w: World, k: nat)
    requires DailyInvariant(s, w, k) && MonotoneDays(w, k) && LaterRun(s, t, k) && NoNewMarks(s, t) && Placed(s)
    requires forall id :: id in s.queue.rows ==> id in t.queue.rows && t.queue.rows[id].key == s.queue.rows[id].key
    ensures forall p :: p in t.handlers ==> MarkedRan(t, w, t.handlers[p], k)
  {
    forall p | p in t.handlers
      ensures MarkedRan(t, w, t.handlers[p], k)
    {
      if t.handlers[p].marked {
        MarkedStays(s, t, w, k, s.handlers[p], t.handlers[p]);
      }
    }
  }

  lemma PassesStay(s: State, t: State, w: World, k: nat)
    requires DailyInvariant(s, w, k) && NoNewPasses(s, t)
    ensures forall q :: q in t.passes ==> PassOk(t, w, t.passes[q], k)
  {
    forall q | q in t.passes
      ensures PassOk(t, w, t.passes[q], k)
    {
      assert PassOk(s, w, s.passes[q], k);
    }
  }

  /** Steps that complete no row of the schedule and mark nothing new. */
  lemma QuietStep(s: State, t: State, w: World, k: nat)
    requires DailyInvariant(s, w, k) && MonotoneDays(w, k) && LaterRun(s, t, k) && NoNewMarks(s, t) && NoNewPasses(s, t)
    requires Placed(s)
    requires t.queue.rows.Keys == s.queue.rows.Keys
    requires forall id :: id in s.queue.rows ==> Carried(s.queue.rows[id], t.queue.rows[id], k)
    ensures DailyInvariant(t, w, k)
  {
    forall id | id in t.queue.rows
      ensures DailyRowOk(t, w, t.queue.rows[id], k)
    {
      DailyRowStays(s, t, w, k, s.queue.rows[id], t.queue.rows[id]);
    }
    HandlersStay(s, t, w, k);
    PassesStay(s, t, w, k);
  }

  /** A request for a daily row runs the schedule of its key, on a day that has begun. */
  predicate DailyRequestOk(r: JobRequest, w: World, k: nat, now: Time) {
    r.key.Some? && r.key.value.DailyKey? && r.key.value.schedule == k ==>
      r.payload == Pipeline(k) && r.key.value.day <= w.local(k, now).day
  }

  lemma NewRowStep(s: State, t: State, r: JobRequest, now: Time, w: World, k: nat)
    requires DailyInvariant(s, w, k) && MonotoneDays(w, k) && Valid(s.queue) && Placed(s)
    requires t.queue == Enqueued(s.queue, r, now) && t.handlers == s.handlers && t.lastRun == s.lastRun
    requires NoNewPasses(s, t) && t.clock == now
    requires r.status.None? || r.status.value == Pending
    requires DailyRequestOk(r, w, k, now)
    ensures DailyInvariant(t, w, k)
  {
    forall id | id in t.queue.rows
      ensures DailyRowOk(t, w, t.queue.rows[id], k)
    {
      if id in s.queue.rows {
        DailyRowStays(s, t, w, k, s.queue.rows[id], t.queue.rows[id]);
      }
    }
    HandlersStay(s, t, w, k);
    PassesStay(s, t, w, k);
  }

  lemma InsertStep(s: State, pass: nat, schedule: nat, at: Time, now: Time, w: World, k: nat)
    requires DailyInvariant(s, w, k) && MonotoneDays(w, k) && Valid(s.queue) && Placed(s)
    requires Enabled(s, Event(now, Insert(pass, schedule, at)))
    ensures DailyInvariant(Apply(s, Event(now, Insert(pass, schedule, at)), w), w, k)
  {
    var t, listed := Apply(s, Event(now, Insert(pass, schedule, at)), w), s.passes[pass].listed;
    if Ripe(listed, w.local(schedule, at)) {
      var r := DailyRequest(listed, w.local(schedule, at).day, at);
      assert schedule == k ==> w.local(k, at).day <= w.local(k, now).day;
      NewRowStep(s, t, r, now, w, k);
    } else {
      QuietStep(s, t, w, k);
    }
  }

  lemma ListStep(s: State, pass: nat, row: Schedule, now: Time, w: World, k: nat)
    requires DailyInvariant(s, w, k) && MonotoneDays(w, k) && Placed(s) && Enabled(s, Event(now, List(pass, row)))
    ensures DailyInvariant(Apply(s, Event(now, List(pass, row)), w), w, k)
  {
    var t := Apply(s, Event(now, List(pass, row)), w);
    QuietStep(s, t.(passes := s.passes), w, k);
    forall q | q in t.passes
      ensures PassOk(t, w, t.passes[q], k)
    {
      if q == pass {
        assert k in s.lastRun ==> w.local(k, s.lastRun[k]).day <= w.local(k, now).day;
      } else {
        assert PassOk(s, w, s.passes[q], k);
      }
    }
  }

  lemma MarkStep(s: State, p: nat, schedule: nat, now: Time, w: World, k: nat)
    requires DailyInvariant(s, w, k) && MonotoneDays(w, k) && Placed(s) && Enabled(s, Event(now, Mark(p, schedule)))
    ensures DailyInvariant(Apply(s, Event(now, Mark(p, schedule)), w), w, k)
  {
    var t := Apply(s, Event(now, Mark(p, schedule)), w);
    assert LaterRun(s, t, k);
    assert w.local(k, s.clock).day <= w.local(k, now).day;
    forall id | id in t.queue.rows
      ensures DailyRowOk(t, w, t.queue.rows[id], k)
    {
      DailyRowStays(s, t, w, k, s.queue.rows[id], t.queue.rows[id]);
    }
    forall q | q in t.handlers
      ensures MarkedRan(t, w, t.handlers[q], k)
    {
      if q == p {
        assert DailyRowOk(s, w, s.queue.rows[s.handlers[p].job], k);
      } else {
        MarkedStays(s, t, w, k, s.handlers[q], t.handlers[q]);
      }
    }
    PassesStay(s, t, w, k);
  }

  lemma SucceedRow(s: State, p: nat, how: Finish, now: Time, w: World, k: nat, id: JobId)
    requires DailyInvariant(s, w, k) && MonotoneDays(w, k)
    requires Enabled(s, Event(now, Finish(p, how))) && how.Succeed? && id in s.queue.rows
    ensures var t := Apply(s, Event(now, Finish(p, how)), w);
            id in t.queue.rows && DailyRowOk(t, w, t.queue.rows[id], k)
  {
    var t := Apply(s, Event(now, Finish(p, how)), w);
    assert DailyRowOk(s, w, s.queue.rows[id], k) && MarkedRan(s, w, s.handlers[p], k);
    assert w.local(k, s.clock).day <= w.local(k, now).day;
  }

  lemma SucceedStep(s: State, p: nat, how: Finish, now: Time, w: World, k: nat)
    requires DailyInvariant(s, w, k) && MonotoneDays(w, k) && Placed(s)
    requires Enabled(s, Event(now, Finish(p, how))) && how.Succeed?
    ensures DailyInvariant(Apply(s, Event(now, Finish(p, how)), w), w, k)
  {
    var t, job := Apply(s, Event(now, Finish(p, how)), w), s.handlers[p].job;
    assert t.queue.rows == s.queue.rows[job := CompletedRow(s.queue.rows[job], how.result, now)];
    forall id | id in t.queue.rows
      ensures DailyRowOk(t, w, t.queue.rows[id], k)
    {
      SucceedRow(s, p, how, now, w, k, id);
    }
    HandlersStay(s, t, w, k);
    PassesStay(s, t, w, k);
  }

  /** Recovering, claiming, extending, crashing and failing complete nothing and mark nothing. */
  predicate Completes(e: Event) {
    e.step.Finish? && e.step.how.Succeed?
  }

  predicate Plain(e: Event) {
    e.step.Recover? || e.step.Claim? || e.step.Extend? || e.step.Crash? || (e.step.Finish? && !Completes(e))
  }

  lemma PlainStep(s: State, e: Event, w: World, k: nat)
    requires DailyInvariant(s, w, k) && LeaseInvariant(s, w, DailyJobs(k)) && MonotoneDays(w, k) && Enabled(s, e)
    requires Plain(e)
    ensures DailyInvariant(Apply(s, e, w), w, k)
  {
    CarriedOver(s, e, w, k);
    NothingMarked(s, e, w);
    QuietStep(s, Apply(s, e, w), w, k);
  }

  lemma NothingMarked(s: State, e: Event, w: World)
    requires Enabled(s, e) && Plain(e)
    ensures var t := Apply(s, e, w); t.lastRun == s.lastRun && NoNewMarks(s, t) && NoNewPasses(s, t)
  {
  }

  lemma CarriedOver(s: State, e: Event, w: World, k: nat)
    requires LeaseInvariant(s, w, DailyJobs(k)) && Enabled(s, e) && Plain(e)
    ensures var t := Apply(s, e, w);
            && t.queue.rows.Keys == s.queue.rows.Keys
            && forall id :: id in s.queue.rows ==> Carried(s.queue.rows[id], t.queue.rows[id], k)
  {
    forall id | id in s.queue.rows
      ensures id in Apply(s, e, w).queue.rows && Carried(s.queue.rows[id], Apply(s, e, w).queue.rows[id], k)
    {
      RowCarried(s, e, w, k, id);
    }
  }

  lemma RowCarried(s: State, e: Event, w: World, k: nat, id: JobId)
    requires LeaseInvariant(s, w, DailyJobs(k)) && Enabled(s, e) && Plain(e) && id in s.queue.rows
    ensures id in Apply(s, e, w).queue.rows && Carried(s.queue.rows[id], Apply(s, e, w).queue.rows[id], k)
  {
    if e.step.Finish? {
      FailedRowCarried(s, e, w, k, id);
    }
  }

  /** A handler that gives its watched job up owns the row, so the row was not completed. */
  lemma FailedRowCarried(s: State, e: Event, w: World, k: nat, id: JobId)
    requires LeaseInvariant(s, w, DailyJobs(k)) && Enabled(s, e) && e.step.Finish? && !Completes(e)
    requires id in s.queue.rows
    ensures id in Apply(s, e, w).queue.rows && Carried(s.queue.rows[id], Apply(s, e, w).queue.rows[id], k)
  {
    assert Watched(s, s.handlers[e.step.p].job, DailyJobs(k)) ==> Owns(s, w, e.step.p);
  }

  lemma DailyStep(s: State, e: Event, w: World, k: nat)
    requires DailyInvariant(s, w, k) && LeaseInvariant(s, w, DailyJobs(k)) && RowInvariant(s) && MonotoneDays(w, k)
    requires Enabled(s, e)
    ensures DailyInvariant(Apply(s, e, w), w, k)
  {
    match e.step
    case List(pass, row) => ListStep(s, pass, row, e.now, w, k);
    case Insert(pass, schedule, at) => InsertStep(s, pass, schedule, at, e.now, w, k);
    case Submit(r) => NewRowStep(s, Apply(s, e, w), r, e.now, w, k);
    case Mark(p, schedule) => MarkStep(s, p, schedule, e.now, w, k);
    case Finish(p, how) =>
      if how.Succeed? { SucceedStep(s, p, how, e.now, w, k); } else { PlainStep(s, e, w, k); }
    case _ => PlainStep(s, e, w, k);
  }

  /** Over every timely run, stale passes included: a completed daily row means its schedule has run. */
  lemma {:induction false} TimelyRunsKeepSchedules(w: World, run: seq<Event>, s: State, k: nat)
    requires Reaches(w, run, s, DailyJobs(k)) && MonotoneDays(w, k)
    ensures DailyInvariant(s, w, k)
    decreases |run|
  {
    if run != [] {
      var n := |run| - 1;
      var before :| Reaches(w, run[..n], before, DailyJobs(k)) && Leads(w, before, run[n], s, DailyJobs(k));
      TimelyRunsKeepSchedules(w, run[..n], before, k);
      TimelyRunsOwn(w, run[..n], before, DailyJobs(k));
      RowsAreConsistent(w, run[..n], before, DailyJobs(k));
      DailyStep(before, run[n], w, k);
    }
  }

  // ----- which inserts repeat a completed key

  predicate HasKey(row: Row, k: nat, day: int) {
    row.key == Some(DailyKey(k, day))
  }

  /** A completed row of a day seen by a listing keeps the schedule from being due on that day. */
  lemma ListedAfterCompletion(s: State, w: World, row: Schedule, at: Time, id: JobId)
    requires DailyInvariant(s, w, row.id) && MonotoneDays(w, row.id) && s.clock <= at
    requires id in s.queue.rows && s.queue.rows[id].status == Completed
    requires HasKey(s.queue.rows[id], row.id, w.local(row.id, at).day)
    ensures !Ripe(Listed(s, row, w), w.local(row.id, at))
  {
    assert DailyRowOk(s, w, s.queue.rows[id], row.id);
    assert w.local(row.id, s.lastRun[row.id]).day <= w.local(row.id, at).day;
  }

  /** Listing again would read the same. */
  predicate Current(s: State, w: World, pass: Pass) {
    Listed(s, pass.listed, w) == pass.listed
  }

  /** A pass whose listing is current offers no key that has a completed row. */
  lemma CompletedKeyIsNotInserted(s: State, w: World, pass: Pass, at: Time, id: JobId)
    requires DailyInvariant(s, w, pass.listed.id) && MonotoneDays(w, pass.listed.id) && Current(s, w, pass)
    requires PassOk(s, w, pass, pass.listed.id) && pass.listedAt <= at
    requires Ripe(pass.listed, w.local(pass.listed.id, at))
    requires id in s.queue.rows && s.queue.rows[id].status == Completed
    ensures !HasKey(s.queue.rows[id], pass.listed.id, w.local(pass.listed.id, at).day)
  {
    var k := pass.listed.id;
    assert DailyRowOk(s, w, s.queue.rows[id], k);
    assert w.local(k, pass.listedAt).day <= w.local(k, at).day;
  }

  predicate CompletedIn(s: State, id: JobId) {
    id in s.queue.rows && s.queue.rows[id].status == Completed
  }

  ghost predicate HasCompleted(s: State, k: nat, day: int) {
    exists id :: CompletedIn(s, id) && HasKey(s.queue.rows[id], k, day)
  }

  ghost predicate HasLive(s: State, k: nat, day: int) {
    exists id :: id in s.queue.rows && Live(s.queue.rows[id]) && HasKey(s.queue.rows[id], k, day)
  }

  /** A job of the key was completed after `early` and before `late`. */
  ghost predicate CompletedBetween(early: State, late: State, k: nat, day: int) {
    exists id :: CompletedIn(late, id) && HasKey(late.queue.rows[id], k, day) && !CompletedIn(early, id)
  }

  /** The pass neither inserts nor lists within `mid`. */
  predicate Waiting(mid: seq<Event>, pass: nat) {
    forall i :: 0 <= i < |mid| ==> !Lists(mid[i], pass) && !(mid[i].step.Insert? && mid[i].step.pass == pass)
  }

  predicate Lists(e: Event, pass: nat) {
    e.step.List? && e.step.pass == pass
  }

  lemma PassStays(s: State, e: Event, w: World, pass: nat)
    requires Enabled(s, e) && pass in s.passes && !(e.step.Insert? && e.step.pass == pass)
    ensures pass in Apply(s, e, w).passes && Apply(s, e, w).passes[pass] == s.passes[pass]
  {
  }

  lemma {:induction false} WaitingPassStays(w: World, pre: seq<Event>, early: State, mid: seq<Event>, late: State,
                                            pass: nat, watch: Watch)
    requires Reaches(w, pre, early, watch) && Reaches(w, pre + mid, late, watch) && pass in early.passes
    requires Waiting(mid, pass)
    ensures pass in late.passes && late.passes[pass] == early.passes[pass]
    decreases |mid|
  {
    if mid == [] {
      NoStep(w, pre, early, mid, late, watch);
    } else {
      var n := |mid| - 1;
      var before := LastStep(w, pre, mid, late, watch);
      WaitingPassStays(w, pre, early, mid[..n], before, pass, watch);
      PassStays(before, mid[n], w, pass);
    }
  }

  /**
   An insert changes the queue exactly when the listed schedule is enabled, past its
   minute, outside its quiet hours and not yet run that day, and no live job holds the
   day's key; it then adds the schedule's job for that day and changes no other row.
   */
  lemma InsertAdds(s: State, e: Event, w: World)
    requires Enabled(s, e) && Valid(s.queue) && e.step.Insert?
    ensures var k, local := e.step.schedule, w.local(e.step.schedule, e.step.at);
            Apply(s, e, w).queue != s.queue <==> Ripe(s.passes[e.step.pass].listed, local) && !HasLive(s, k, local.day)
    ensures var after, listed := Apply(s, e, w).queue, s.passes[e.step.pass].listed;
            after != s.queue ==>
              && after.rows.Keys == s.queue.rows.Keys + {s.queue.nextId}
              && (forall id :: id in s.queue.rows ==> after.rows[id] == s.queue.rows[id])
              && IsDailyJob(after.rows[s.queue.nextId], listed, w.local(e.step.schedule, e.step.at), e.step.at, e.now)
  {
    var id, after := s.queue.nextId, Apply(s, e, w).queue;
    assert after != s.queue ==> id !in s.queue.rows && id in after.rows;
  }

  /**
   In every timely run: the insert of a pass adds a row next to a completed one of the
   same key if and only if the schedule was due in its listing, no live row holds the
   key, and a job of the key was completed between the listing and the insert.
   */
  lemma InsertRepeatsIff(w: World, pre: seq<Event>, list: Event, early: State, mid: seq<Event>, s: State, e: Event)
    requires list.step.List? && e.step.Insert? && e.step.pass == list.step.pass && e.step.schedule == list.step.row.id
    requires Reaches(w, pre + [list], early, DailyJobs(e.step.schedule))
    requires Reaches(w, pre + [list] + mid, s, DailyJobs(e.step.schedule)) && Waiting(mid, e.step.pass) && Enabled(s, e)
    requires MonotoneDays(w, e.step.schedule)
    ensures var k, local := e.step.schedule, w.local(e.step.schedule, e.step.at);
            (Apply(s, e, w).queue != s.queue && HasCompleted(s, k, local.day)) <==>
            (&& Ripe(early.passes[e.step.pass].listed, local)
             && !HasLive(s, k, local.day)
             && CompletedBetween(early, s, k, local.day))
  {
    var k, at, pass := e.step.schedule, e.step.at, e.step.pass;
    var day := w.local(k, at).day;
    ListedAs(w, pre, list, early, DailyJobs(k));
    WaitingPassStays(w, pre + [list], early, mid, s, pass, DailyJobs(k));
    RowsAreConsistent(w, pre + [list] + mid, s, DailyJobs(k));
    InsertAdds(s, e, w);
    TimelyRunsKeepSchedules(w, pre + [list], early, k);
    if id :| CompletedIn(s, id) && HasKey(s.queue.rows[id], k, day) {
      if CompletedIn(early, id) {
        KeyStays(w, pre + [list], early, mid, s, id, DailyJobs(k));
        ListedAfterCompletion(early, w, list.step.row, at, id);
      }
    }
  }

  lemma ListedAs(w: World, pre: seq<Event>, list: Event, early: State, watch: Watch)
    requires list.step.List? && Reaches(w, pre + [list], early, watch)
    ensures list.step.pass in early.passes
    ensures early.passes[list.step.pass] == Pass(Listed(early, list.step.row, w), early.clock)
  {
    var run := pre + [list];
    var before :| Reaches(w, run[..|run| - 1], before, watch) && Leads(w, before, run[|run| - 1], early, watch);
  }

  lemma {:induction false} KeyStays(w: World, pre: seq<Event>, early: State, mid: seq<Event>, late: State, id: JobId,
                                    watch: Watch)
    requires Reaches(w, pre, early, watch) && Reaches(w, pre + mid, late, watch) && id in early.queue.rows
    ensures id in late.queue.rows && late.queue.rows[id].key == early.queue.rows[id].key
    decreases |mid|
  {
    if mid == [] {
      NoStep(w, pre, early, mid, late, watch);
    } else {
      var n := |mid| - 1;
      var before := LastStep(w, pre, mid, late, watch);
      KeyStays(w, pre, early, mid[..n], before, id, watch);
      RowsAreConsistent(w, pre + mid[..n], before, watch);
      RowsStay(before, mid[n], w, id);
    }
  }

  // ----- passes that nobody marks into

  predicate Marks(e: Event, k: nat) {
    e.step.Mark? && e.step.schedule == k
  }

  /** Schedule `k` was marked since the pass last listed. */
  ghost predicate MarkedSince(run: seq<Event>, pass: nat, k: nat) {
    exists i :: 0 <= i < |run| && MarkedLast(run, i, pass, k)
  }

  predicate MarkedLast(run: seq<Event>, i: nat, pass: nat, k: nat)
    requires i < |run|
  {
    Marks(run[i], k) && forall j :: i < j < |run| ==> !Lists(run[j], pass)
  }

  /** No run of schedule `k` is marked between a pass's listing and its insert. */
  ghost predicate Undivided(run: seq<Event>, k: nat) {
    forall m :: 0 <= m < |run| ==> UndividedAt(run, m, k)
  }

  ghost predicate UndividedAt(run: seq<Event>, m: nat, k: nat)
    requires m < |run|
  {
    run[m].step.Insert? && run[m].step.schedule == k ==> !MarkedSince(run[..m], run[m].step.pass, k)
  }

  lemma UndividedFront(run: seq<Event>, k: nat)
    requires Undivided(run, k) && run != []
    ensures Undivided(run[..|run| - 1], k)
  {
    var front := run[..|run| - 1];
    forall m | 0 <= m < |front|
      ensures UndividedAt(front, m, k)
    {
      assert UndividedAt(run, m, k) && front[..m] == run[..m];
    }
  }

  lemma MarkedStaysSince(run: seq<Event>, e: Event, pass: nat, k: nat)
    requires MarkedSince(run, pass, k) && !Lists(e, pass)
    ensures MarkedSince(run + [e], pass, k)
  {
    var i :| 0 <= i < |run| && MarkedLast(run, i, pass, k);
    assert MarkedLast(run + [e], i, pass, k);
  }

  /** A listing that is no longer current was overtaken by a mark. */
  lemma {:induction false} StaleMeansMarked(w: World, run: seq<Event>, s: State, pass: nat, watch: Watch)
    requires Reaches(w, run, s, watch) && pass in s.passes && !Current(s, w, s.passes[pass])
    ensures MarkedSince(run, pass, s.passes[pass].listed.id)
    decreases |run|
  {
    var n, k := |run| - 1, s.passes[pass].listed.id;
    assert run != [];
    var before :| Reaches(w, run[..n], before, watch) && Leads(w, before, run[n], s, watch);
    StaleStep(before, run[n], w, pass);
    assert run == run[..n] + [run[n]];
    if Marks(run[n], k) {
      assert MarkedLast(run, n, pass, k);
    } else {
      StaleMeansMarked(w, run[..n], before, pass, watch);
      MarkedStaysSince(run[..n], run[n], pass, k);
    }
  }

  lemma StaleStep(s: State, e: Event, w: World, pass: nat)
    requires Enabled(s, e) && pass in Apply(s, e, w).passes && !Current(Apply(s, e, w), w, Apply(s, e, w).passes[pass])
    ensures !Lists(e, pass)
    ensures pass in s.passes && s.passes[pass] == Apply(s, e, w).passes[pass]
    ensures Marks(e, s.passes[pass].listed.id) || !Current(s, w, s.passes[pass])
  {
    FreshListing(s, e, w, pass);
    PassOrigin(s, e, w, pass);
    if !Marks(e, s.passes[pass].listed.id) {
      SameListing(s, e, w, s.passes[pass]);
    }
  }

  lemma FreshListing(s: State, e: Event, w: World, pass: nat)
    requires Enabled(s, e) && pass in Apply(s, e, w).passes
    ensures Lists(e, pass) ==> Current(Apply(s, e, w), w, Apply(s, e, w).passes[pass])
  {
  }

  lemma PassOrigin(s: State, e: Event, w: World, pass: nat)
    requires Enabled(s, e) && pass in Apply(s, e, w).passes && !Lists(e, pass)
    ensures pass in s.passes && s.passes[pass] == Apply(s, e, w).passes[pass]
  {
  }

  lemma SameListing(s: State, e: Event, w: World, pass: Pass)
    requires Enabled(s, e) && !Marks(e, pass.listed.id)
    ensures Current(Apply(s, e, w), w, pass) <==> Current(s, w, pass)
  {
    var t, k := Apply(s, e, w), pass.listed.id;
    assert k in t.lastRun <==> k in s.lastRun;
    assert k in s.lastRun ==> t.lastRun[k] == s.lastRun[k];
  }

  // ----- at most one completed job a schedule and day

  /** Two rows of one daily key: a completed one tolerates only dead others. */
  predicate Alone(a: Row, b: Row, k: nat) {
    a.status == Completed && OfSchedule(a, k) && a.key == b.key ==> b.status == Dead
  }

  predicate AllAlone(rows: map<JobId, Row>, k: nat) {
    forall i, j :: i in rows && j in rows && i != j ==> Alone(rows[i], rows[j], k)
  }

  lemma CarriedAlone(before: map<JobId, Row>, after: map<JobId, Row>, k: nat)
    requires AllAlone(before, k) && after.Keys == before.Keys
    requires forall id :: id in before ==> Carried(before[id], after[id], k)
    ensures AllAlone(after, k)
  {
    forall i, j | i in after && j in after && i != j
      ensures Alone(after[i], after[j], k)
    {
      assert Alone(before[i], before[j], k);
      assert Carried(before[i], after[i], k) && Carried(before[j], after[j], k);
    }
  }

  /** The unique live row of a key may complete: nothing else of that key is live or completed. */
  lemma CompletingKeepsAlone(rows: map<JobId, Row>, job: JobId, result: string, now: Time, k: nat)
    requires job in rows && (OfSchedule(rows[job], k) ==> Live(rows[job])) && UniqueLive(rows) && AllAlone(rows, k)
    ensures AllAlone(rows[job := CompletedRow(rows[job], result, now)], k)
  {
    var after := rows[job := CompletedRow(rows[job], result, now)];
    forall i, j | i in after && j in after && i != j
      ensures Alone(after[i], after[j], k)
    {
      assert Alone(rows[i], rows[j], k) && Alone(rows[j], rows[i], k);
    }
  }

  lemma EnqueueingKeepsAlone(q: Queue, r: JobRequest, now: Time, k: nat)
    requires Valid(q) && AllAlone(q.rows, k) && (r.status.None? || r.status.value == Pending)
    requires r.key.Some? && r.key.value.DailyKey? && r.key.value.schedule == k ==>
               forall id :: id in q.rows && q.rows[id].status == Completed ==> q.rows[id].key != r.key
    ensures AllAlone(Enqueued(q, r, now).rows, k)
  {
    var after := Enqueued(q, r, now).rows;
    forall i, j | i in after && j in after && i != j
      ensures Alone(after[i], after[j], k)
    {
      assert i in q.rows && j in q.rows ==> Alone(q.rows[i], q.rows[j], k);
    }
  }

  lemma InsertKeepsAlone(s: State, pass: nat, schedule: nat, at: Time, now: Time, w: World, k: nat)
    requires DailyInvariant(s, w, k) && MonotoneDays(w, k) && Valid(s.queue) && AllAlone(s.queue.rows, k)
    requires Enabled(s, Event(now, Insert(pass, schedule, at)))
    requires schedule == k ==> Current(s, w, s.passes[pass])
    ensures AllAlone(Apply(s, Event(now, Insert(pass, schedule, at)), w).queue.rows, k)
  {
    var listed, local := s.passes[pass].listed, w.local(schedule, at);
    if Ripe(listed, local) {
      forall id | id in s.queue.rows && s.queue.rows[id].status == Completed && schedule == k
        ensures s.queue.rows[id].key != Some(DailyKey(k, local.day))
      {
        assert PassOk(s, w, s.passes[pass], k);
        CompletedKeyIsNotInserted(s, w, s.passes[pass], at, id);
      }
      EnqueueingKeepsAlone(s.queue, DailyRequest(listed, local.day, at), now, k);
    }
  }

  lemma AloneStep(s: State, e: Event, w: World, k: nat)
    requires DailyInvariant(s, w, k) && LeaseInvariant(s, w, DailyJobs(k)) && RowInvariant(s) && MonotoneDays(w, k)
    requires Enabled(s, e) && AllAlone(s.queue.rows, k)
    requires e.step.Insert? && e.step.schedule == k ==> Current(s, w, s.passes[e.step.pass])
    ensures AllAlone(Apply(s, e, w).queue.rows, k)
  {
    if Plain(e) {
      CarriedOver(s, e, w, k);
      CarriedAlone(s.queue.rows, Apply(s, e, w).queue.rows, k);
    } else if Completes(e) {
      CompletedAlone(s, e, w, k);
    } else if e.step.Insert? {
      InsertKeepsAlone(s, e.step.pass, e.step.schedule, e.step.at, e.now, w, k);
    } else if e.step.Submit? {
      EnqueueingKeepsAlone(s.queue, e.step.request, e.now, k);
    }
  }

  lemma CompletedAlone(s: State, e: Event, w: World, k: nat)
    requires LeaseInvariant(s, w, DailyJobs(k)) && RowInvariant(s) && Enabled(s, e) && Completes(e)
    requires AllAlone(s.queue.rows, k)
    ensures AllAlone(Apply(s, e, w).queue.rows, k)
  {
    var job := s.handlers[e.step.p].job;
    assert Watched(s, job, DailyJobs(k)) ==> Owns(s, w, e.step.p);
    CompletingKeepsAlone(s.queue.rows, job, e.step.how.result, e.now, k);
  }

  lemma {:induction false} UndividedRunsStayAlone(w: World, run: seq<Event>, s: State, k: nat)
    requires Reaches(w, run, s, DailyJobs(k)) && MonotoneDays(w, k) && Undivided(run, k)
    ensures AllAlone(s.queue.rows, k)
    decreases |run|
  {
    if run != [] {
      var n := |run| - 1;
      var before :| Reaches(w, run[..n], before, DailyJobs(k)) && Leads(w, before, run[n], s, DailyJobs(k));
      UndividedFront(run, k);
      UndividedRunsStayAlone(w, run[..n], before, k);
      TimelyRunsKeepSchedules(w, run[..n], before, k);
      TimelyRunsOwn(w, run[..n], before, DailyJobs(k));
      RowsAreConsistent(w, run[..n], before, DailyJobs(k));
      assert UndividedAt(run, n, k);
      InsertIsCurrent(w, run[..n], before, run[n], k);
      AloneStep(before, run[n], w, k);
    }
  }

  lemma InsertIsCurrent(w: World, run: seq<Event>, s: State, e: Event, k: nat)
    requires Reaches(w, run, s, DailyJobs(k)) && Enabled(s, e)
    requires e.step.Insert? && e.step.schedule == k ==> !MarkedSince(run, e.step.pass, k)
    ensures e.step.Insert? && e.step.schedule == k ==> Current(s, w, s.passes[e.step.pass])
  {
    if e.step.Insert? && e.step.schedule == k && !Current(s, w, s.passes[e.step.pass]) {
      StaleMeansMarked(w, run, s, e.step.pass, DailyJobs(k));
      assert false;
    }
  }

  /**
   If the leases of this schedule's daily jobs are renewed in time, its local days are
   monotone and no mark of it divides a pass, whatever happens to other jobs: a
   completed daily row means the schedule has run on or after that day, every other row
   of the key is dead, and a pass that lists from now on is due on later days only.
   */
  lemma AtMostOnePerDay(w: World, run: seq<Event>, s: State, id: JobId, k: nat, day: int)
    requires Reaches(w, run, s, DailyJobs(k)) && MonotoneDays(w, k) && Undivided(run, k)
    requires CompletedIn(s, id) && HasKey(s.queue.rows[id], k, day)
    ensures RanBy(s, w, k, day)
    ensures forall j ::
              j in s.queue.rows && j != id && HasKey(s.queue.rows[j], k, day) ==> s.queue.rows[j].status == Dead
    ensures forall row: Schedule, at: Time ::
              s.clock <= at && row.id == k && Ripe(Listed(s, row, w), w.local(k, at)) ==>
              w.local(k, at).day > day
  {
    TimelyRunsKeepSchedules(w, run, s, k);
    UndividedRunsStayAlone(w, run, s, k);
    CompletedHasRun(s, w, id, k, day);
    forall j | j in s.queue.rows && j != id && HasKey(s.queue.rows[j], k, day)
      ensures s.queue.rows[j].status == Dead
    {
      assert Alone(s.queue.rows[id], s.queue.rows[j], k);
    }
    forall row: Schedule, at: Time | s.clock <= at && row.id == k && Ripe(Listed(s, row, w), w.local(k, at))
      ensures w.local(k, at).day > day
    {
      RipeLater(s, w, row, at, day);
    }
  }

  lemma CompletedHasRun(s: State, w: World, id: JobId, k: nat, day: int)
    requires DailyInvariant(s, w, k) && CompletedIn(s, id) && HasKey(s.queue.rows[id], k, day)
    ensures RanBy(s, w, k, day) && s.lastRun[k] <= s.clock
  {
    assert DailyRowOk(s, w, s.queue.rows[id], k);
  }

  lemma RipeLater(s: State, w: World, row: Schedule, at: Time, day: int)
    requires MonotoneDays(w, row.id) && RanBy(s, w, row.id, day) && s.lastRun[row.id] <= s.clock <= at
    requires Ripe(Listed(s, row, w), w.local(row.id, at))
    ensures w.local(row.id, at).day > day
  {
    assert w.local(row.id, s.lastRun[row.id]).day <= w.local(row.id, at).day;
  }
}
