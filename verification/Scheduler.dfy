/** Daily schedules: internal/scheduler/service.go. */
module Scheduler {
  import opened JobQueue
  import opened Summaries

  const MINUTES_PER_DAY: int := 1440

  /** A minute of the day. */
  type Minute = m: int | 0 <= m < 1440

  /** A moment in the schedule's time zone. */
  datatype LocalTime = LocalTime(day: int, minute: Minute)

  /**
   A listed schedule. The three times are what `parseDailyTime` makes of the stored
   texts, in minutes of the day, None where it does not parse; `lastRunDay` is the
   local day of `last_run_at`.
   */
  datatype Schedule = Schedule(
    id: nat, enabled: bool, dailyAt: Option<Minute>, quietStart: Option<Minute>, quietEnd: Option<Minute>,
    lastRunDay: Option<int>)

  predicate InQuietHours(minute: Minute, start: Option<Minute>, end: Option<Minute>) {
    if start.None? || end.None? || start == end then false
    else if start.value < end.value then start.value <= minute < end.value
    else minute >= start.value || minute < end.value
  }

  predicate IsDue(s: Schedule, now: LocalTime) {
    && s.enabled
    && !InQuietHours(now.minute, s.quietStart, s.quietEnd)
    && s.dailyAt.Some? && s.dailyAt.value <= now.minute
    && (s.lastRunDay.None? || s.lastRunDay.value != now.day)
  }

  /** Quiet hours are the circular interval from start to end, empty when they coincide. */
  lemma QuietHoursAreCircular(minute: Minute, start: Minute, end: Minute)
    ensures InQuietHours(minute, Some(start), Some(end)) <==>
            (minute - start) % MINUTES_PER_DAY < (end - start) % MINUTES_PER_DAY
  {
    WrapAround(minute - start);
    WrapAround(end - start);
  }

  lemma WrapAround(d: int)
    requires -MINUTES_PER_DAY < d < MINUTES_PER_DAY
    ensures d % MINUTES_PER_DAY == if d < 0 then d + MINUTES_PER_DAY else d
  {
  }

  /** On the clock's face the moment lies at or past the end of the quiet hours, counted from their start. */
  predicate OutsideQuietHours(minute: Minute, start: Minute, end: Minute) {
    (minute - start) % MINUTES_PER_DAY >= (end - start) % MINUTES_PER_DAY
  }

  /** What a daily schedule promises: once a day, from its minute on, never in its quiet hours. */
  predicate Ripe(s: Schedule, now: LocalTime) {
    && s.enabled
    && s.dailyAt.Some? && s.dailyAt.value <= now.minute
    && (s.quietStart.Some? && s.quietEnd.Some? ==>
          OutsideQuietHours(now.minute, s.quietStart.value, s.quietEnd.value))
    && s.lastRunDay != Some(now.day)
  }

  lemma DueIff(s: Schedule, now: LocalTime)
    ensures IsDue(s, now) <==> Ripe(s, now)
  {
    if s.quietStart.Some? && s.quietEnd.Some? {
      QuietHoursAreCircular(now.minute, s.quietStart.value, s.quietEnd.value);
    }
  }

  function DailyRequest(s: Schedule, day: int, now: Time): JobRequest {
    JobRequest(Pipeline(s.id), Some(Pending), 4, Some(now), Some(DailyKey(s.id, day)))
  }

  /** One schedule's turn in a pass that read the clock at `at`, which is `local` in the schedule's zone. */
  function Offered(q: Queue, s: Schedule, local: LocalTime, at: Time, now: Time): Queue {
    if Ripe(s, local) then Enqueued(q, DailyRequest(s, local.day, at), now) else q
  }

  function OfferedAll(q: Queue, items: seq<Schedule>, locals: seq<LocalTime>, now: Time): Queue
    requires |items| == |locals|
  {
    if items == [] then q
    else
      var n := |items| - 1;
      Offered(OfferedAll(q, items[..n], locals[..n], now), items[n], locals[n], now, now)
  }

  function DueCount(items: seq<Schedule>, locals: seq<LocalTime>): nat
    requires |items| == |locals|
  {
    if items == [] then 0
    else
      var n := |items| - 1;
      DueCount(items[..n], locals[..n]) + if Ripe(items[n], locals[n]) then 1 else 0
  }

  /** A pending job that runs the schedule, under the key of its local day. */
  predicate IsDailyJob(row: Row, s: Schedule, local: LocalTime, at: Time, now: Time) {
    && row.payload == Pipeline(s.id) && row.key == Some(DailyKey(s.id, local.day))
    && row.status == Pending && row.attempt == 0 && row.maxAttempts == 4
    && row.availableAt == at && row.createdAt == now
  }

  /** The row was there before or is the job of a ripe schedule. */
  ghost predicate OldOrDaily(id: JobId, before: Queue, after: Queue, items: seq<Schedule>, locals: seq<LocalTime>,
                             now: Time)
    requires |items| == |locals| && id in after.rows
  {
    || (id in before.rows && after.rows[id] == before.rows[id])
    || exists k ::
         && 0 <= k < |items| && Ripe(items[k], locals[k])
         && id !in before.rows && IsDailyJob(after.rows[id], items[k], locals[k], now, now)
  }

  ghost predicate KeyIsLive(q: Queue, key: Key) {
    exists id :: id in q.rows && Live(q.rows[id]) && q.rows[id].key == Some(key)
  }

  /** Every row is an old one or a ripe schedule's job, and every ripe schedule has a live one for its day. */
  ghost predicate PassDone(before: Queue, after: Queue, items: seq<Schedule>, locals: seq<LocalTime>, now: Time)
    requires |items| == |locals|
  {
    && (forall id :: id in before.rows ==> id in after.rows && after.rows[id] == before.rows[id])
    && (forall id :: id in after.rows ==> OldOrDaily(id, before, after, items, locals, now))
    && forall k :: 0 <= k < |items| && Ripe(items[k], locals[k]) ==>
         KeyIsLive(after, DailyKey(items[k].id, locals[k].day))
  }

  /** An insert leaves the old rows alone. */
  lemma EnqueuedAdds(q: Queue, r: JobRequest, now: Time)
    requires Valid(q)
    ensures var after := Enqueued(q, r, now);
            && Valid(after)
            && (forall id :: id in q.rows ==> id in after.rows && after.rows[id] == q.rows[id])
            && forall id :: id in after.rows && id !in q.rows ==> after.rows[id] == NewRow(r, now)
  {
  }

  lemma DailyKeyIsLive(q: Queue, s: Schedule, local: LocalTime, now: Time)
    requires Valid(q)
    ensures KeyIsLive(Enqueued(q, DailyRequest(s, local.day, now), now), DailyKey(s.id, local.day))
  {
    var r := DailyRequest(s, local.day, now);
    var after := Enqueued(q, r, now);
    if KeyTaken(q.rows, q.nextId, r.key) {
      var i :| i in q.rows && i != q.nextId && Live(q.rows[i]) && q.rows[i].key == r.key;
      assert i in after.rows;
    } else {
      assert q.nextId in after.rows && after.rows[q.nextId] == NewRow(r, now);
    }
  }

  lemma OldOrDailyLater(id: JobId, before: Queue, mid: Queue, after: Queue, items: seq<Schedule>,
                        locals: seq<LocalTime>, now: Time, n: nat)
    requires |items| == |locals| == n + 1 && id in mid.rows && id in after.rows && after.rows[id] == mid.rows[id]
    requires OldOrDaily(id, before, mid, items[..n], locals[..n], now)
    ensures OldOrDaily(id, before, after, items, locals, now)
  {
    if !(id in before.rows && mid.rows[id] == before.rows[id]) {
      var k :|
        && 0 <= k < |items[..n]| && Ripe(items[..n][k], locals[..n][k])
        && id !in before.rows && IsDailyJob(mid.rows[id], items[..n][k], locals[..n][k], now, now);
      assert Ripe(items[k], locals[k]) && IsDailyJob(after.rows[id], items[k], locals[k], now, now);
    }
  }

  lemma KeyStaysLive(mid: Queue, after: Queue, key: Key)
    requires KeyIsLive(mid, key) && forall id :: id in mid.rows ==> id in after.rows && after.rows[id] == mid.rows[id]
    ensures KeyIsLive(after, key)
  {
    var id :| id in mid.rows && Live(mid.rows[id]) && mid.rows[id].key == Some(key);
    assert id in after.rows;
  }

  lemma OfferedOneMore(before: Queue, mid: Queue, items: seq<Schedule>, locals: seq<LocalTime>, now: Time, n: nat)
    requires |items| == |locals| == n + 1 && Valid(mid) && PassDone(before, mid, items[..n], locals[..n], now)
    ensures Valid(Offered(mid, items[n], locals[n], now, now))
    ensures PassDone(before, Offered(mid, items[n], locals[n], now, now), items, locals, now)
  {
    var after := Offered(mid, items[n], locals[n], now, now);
    EnqueuedAdds(mid, DailyRequest(items[n], locals[n].day, now), now);
    DailyKeyIsLive(mid, items[n], locals[n], now);
    forall id | id in after.rows
      ensures OldOrDaily(id, before, after, items, locals, now)
    {
      if id in mid.rows {
        OldOrDailyLater(id, before, mid, after, items, locals, now, n);
      } else {
        assert IsDailyJob(after.rows[id], items[n], locals[n], now, now);
      }
    }
    forall k | 0 <= k < |items| && Ripe(items[k], locals[k])
      ensures KeyIsLive(after, DailyKey(items[k].id, locals[k].day))
    {
      if k < n {
        assert Ripe(items[..n][k], locals[..n][k]);
        KeyStaysLive(mid, after, DailyKey(items[k].id, locals[k].day));
      }
    }
  }

  /** What a pass leaves behind, whatever the queue and the schedules. */
  lemma {:induction false} OfferedAllDone(q: Queue, items: seq<Schedule>, locals: seq<LocalTime>, now: Time)
    requires |items| == |locals| && Valid(q)
    ensures Valid(OfferedAll(q, items, locals, now))
    ensures PassDone(q, OfferedAll(q, items, locals, now), items, locals, now)
  {
    if items != [] {
      var n := |items| - 1;
      OfferedAllDone(q, items[..n], locals[..n], now);
      OfferedOneMore(q, OfferedAll(q, items[..n], locals[..n], now), items, locals, now, n);
    }
  }

  /** `locals[k]` is `now` in the zone of `items[k]`. */
  method EnqueueDue(queue: JobRepository, items: seq<Schedule>, locals: seq<LocalTime>, now: Time) returns (count: nat)
    requires |items| == |locals| && Valid(queue.Value())
    modifies queue
    ensures queue.Value() == OfferedAll(old(queue.Value()), items, locals, now)
    ensures PassDone(old(queue.Value()), queue.Value(), items, locals, now)
    ensures count == DueCount(items, locals)
  {
    count := 0;
    for k := 0 to |items|
      invariant queue.Value() == OfferedAll(old(queue.Value()), items[..k], locals[..k], now)
      invariant count == DueCount(items[..k], locals[..k])
    {
      assert items[..k + 1][..k] == items[..k] && locals[..k + 1][..k] == locals[..k];
      DueIff(items[k], locals[k]);
      if !IsDue(items[k], locals[k]) {
        continue;
      }
      OfferedAllDone(old(queue.Value()), items[..k], locals[..k], now);
      var id := queue.Enqueue(DailyRequest(items[k], locals[k].day, now), now);
      count := count + 1;
    }
    assert items[..|items|] == items && locals[..|items|] == locals;
    OfferedAllDone(old(queue.Value()), items, locals, now);
  }

  // ----- RunSchedule

  datatype RunStatus = Processing | RunCompleted | RunFailed

  /** A schedule_runs row; the ids are those of the stages that finished. */
  datatype ScheduleRun = ScheduleRun(
    status: RunStatus, collectionJob: Option<nat>, summary: Option<nat>, exportRow: Option<nat>)

  datatype CollectedGroup = CollectedGroup(jobId: nat, messagesCount: nat)

  /** What the collaborators answer, None being an error. */
  datatype Collaborators = Collaborators(
    configured: bool, runCreated: bool, collected: Option<CollectedGroup>, summarized: Option<nat>,
    hasExporter: bool, exported: Option<nat>)

  /** The ids a run records are those of an initial stretch of its stages. */
  predicate StagesInOrder(run: ScheduleRun) {
    (run.summary.Some? ==> run.collectionJob.Some?) && (run.exportRow.Some? ==> run.summary.Some?)
  }

  /** A finished run has nothing left to do: no messages, or a summary, exported if that was asked for. */
  predicate NothingLeft(run: ScheduleRun, c: Collaborators, toObsidian: bool) {
    && run.collectionJob.Some? && c.collected.Some?
    && (|| c.collected.value.messagesCount == 0
        || (run.summary.Some? && (toObsidian && c.hasExporter ==> run.exportRow.Some?)))
  }

  /** The recorded ids are those the stages returned. */
  predicate OwnIds(run: ScheduleRun, c: Collaborators) {
    && (run.collectionJob.Some? ==> c.collected.Some? && run.collectionJob.value == c.collected.value.jobId)
    && (run.summary.Some? ==> run.summary == c.summarized)
    && (run.exportRow.Some? ==> run.exportRow == c.exported)
  }

  /** One more run row, finished, with a status that tells whether anything is left to do. */
  predicate Recorded(before: seq<ScheduleRun>, after: seq<ScheduleRun>, ok: bool, c: Collaborators, toObsidian: bool) {
    && |after| == |before| + 1 && after[..|before|] == before
    && var run := after[|before|];
       && run.status == (if ok then RunCompleted else RunFailed)
       && StagesInOrder(run) && OwnIds(run, c) && (ok <==> NothingLeft(run, c, toObsidian))
  }

  lemma LastEntry(runs: seq<ScheduleRun>, run: ScheduleRun)
    requires runs != []
    ensures runs[|runs| - 1 := run] == runs[..|runs| - 1] + [run]
  {
  }

  /** The schedule as a pass lists it, given when each schedule last ran. */
  function Relisted(schedule: Schedule, lastRun: map<nat, Time>, local: (nat, Time) -> LocalTime): Schedule {
    schedule.(lastRunDay := if schedule.id in lastRun then Some(local(schedule.id, lastRun[schedule.id]).day) else None)
  }

  /**
   Marking a run keeps the schedule from being due for the rest of its local day and
   leaves every other schedule as due as it was.
   */
  lemma MarkedIsNotDue(lastRun: map<nat, Time>, id: nat, now: Time, schedule: Schedule, local: (nat, Time) -> LocalTime,
                       later: Time)
    ensures schedule.id == id && local(id, later).day == local(id, now).day ==>
              !Ripe(Relisted(schedule, lastRun[id := now], local), local(id, later))
    ensures schedule.id != id ==> Relisted(schedule, lastRun[id := now], local) == Relisted(schedule, lastRun, local)
  {
  }

  class ScheduleStore {
    var runs: seq<ScheduleRun>
    var lastRun: map<nat, Time>

    constructor ()
      ensures runs == [] && lastRun == map[]
    {
      runs, lastRun := [], map[];
    }

    /**
     The run row ends, completed exactly when nothing is left to do, and records the
     stages that finished; the schedule is marked exactly when the row is completed.
     */
    method RunSchedule(id: nat, toObsidian: bool, c: Collaborators, now: Time) returns (ok: bool)
      modifies this
      ensures !c.runCreated ==> !ok && runs == old(runs)
      ensures c.runCreated ==> Recorded(old(runs), runs, ok, c, toObsidian)
      ensures lastRun == if ok then old(lastRun)[id := now] else old(lastRun)
    {
      if !c.runCreated {
        return false;
      }
      runs := runs + [ScheduleRun(Processing, None, None, None)];
      var run := Pipe(toObsidian, c);
      ok := run.status == RunCompleted;
      LastEntry(runs, run);
      runs := runs[|runs| - 1 := run];
      if ok {
        lastRun := lastRun[id := now];
      }
    }

    /** The stages one after the other, stopping at the first error. */
    static method Pipe(toObsidian: bool, c: Collaborators) returns (run: ScheduleRun)
      requires c.runCreated
      ensures run.status != Processing && StagesInOrder(run) && OwnIds(run, c)
      ensures run.status == RunCompleted <==> NothingLeft(run, c, toObsidian)
    {
      run := ScheduleRun(RunFailed, None, None, None);
      if !c.configured || c.collected.None? {
        return;
      }
      run := run.(collectionJob := Some(c.collected.value.jobId));
      if c.collected.value.messagesCount == 0 {
        return run.(status := RunCompleted);
      }
      if c.summarized.None? {
        return;
      }
      run := run.(summary := c.summarized);
      if toObsidian && c.hasExporter {
        if c.exported.None? {
          return;
        }
        run := run.(exportRow := c.exported);
      }
      return run.(status := RunCompleted);
    }
  }
}
