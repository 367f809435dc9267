/**
 The goroutines of `summarizeBatches` (internal/summary/llm/openai.go) as a state
 machine: one goroutine a batch, a semaphore of three places, a context that may be
 cancelled at any moment.
 */
module BatchRuns {
  import opened Summaries

  const MAX_BATCH_CONCURRENCY: nat := 3

  /** Waiting at the semaphore, summarising, written but not yet released, finished. */
  datatype Phase = Waiting | Working | Recorded | Done

  datatype BatchOutcome<R, E> = Produced(result: R) | Failed(error: E)

  /** `results[i]` and `errs[i]` are the two slices the goroutines write. */
  datatype State<R, E> = State(phases: seq<Phase>, results: seq<Option<R>>, errs: seq<Option<E>>, cancelled: bool)

  datatype Action = Acquire(i: nat) | GiveUp(i: nat) | Finish(i: nat) | Release(i: nat) | Cancel

  function Initial<R, E>(n: nat): State<R, E> {
    State(seq(n, _ => Waiting), seq(n, _ => None), seq(n, _ => None), false)
  }

  predicate Holds(p: Phase) {
    p.Working? || p.Recorded?
  }

  /** Places of the semaphore that are taken. */
  function Held(phases: seq<Phase>): nat {
    if phases == [] then 0
    else Held(phases[..|phases| - 1]) + if Holds(phases[|phases| - 1]) then 1 else 0
  }

  predicate Sized<R, E>(s: State<R, E>, n: nat) {
    |s.phases| == n && |s.results| == n && |s.errs| == n
  }

  predicate Enabled<R, E>(s: State<R, E>, a: Action) {
    match a
    case Acquire(i) => i < |s.phases| && s.phases[i] == Waiting && Held(s.phases) < MAX_BATCH_CONCURRENCY
    case GiveUp(i) => i < |s.phases| && s.phases[i] == Waiting && s.cancelled
    case Finish(i) => i < |s.phases| && s.phases[i] == Working
    case Release(i) => i < |s.phases| && s.phases[i] == Recorded
    case Cancel => !s.cancelled
  }

  /** `outcomes[i]` is what batch `i` ends in once it runs; `ctxErr` is `ctx.Err()`. */
  function Apply<R, E>(s: State<R, E>, a: Action, outcomes: seq<BatchOutcome<R, E>>, ctxErr: E): State<R, E>
    requires Sized(s, |outcomes|) && Enabled(s, a)
  {
    match a
    case Acquire(i) => s.(phases := s.phases[i := Working])
    case GiveUp(i) => s.(phases := s.phases[i := Done], errs := s.errs[i := Some(ctxErr)])
    case Finish(i) =>
      (match outcomes[i]
       case Produced(r) => s.(phases := s.phases[i := Recorded], results := s.results[i := Some(r)])
       case Failed(e) => s.(phases := s.phases[i := Recorded], errs := s.errs[i := Some(e)]))
    case Release(i) => s.(phases := s.phases[i := Done])
    case Cancel => s.(cancelled := true)
  }

  /** A schedule: actions taken one after the other, each enabled when taken. */
  ghost predicate Reaches<R(!new), E(!new)>(outcomes: seq<BatchOutcome<R, E>>, ctxErr: E, schedule: seq<Action>,
                                            s: State<R, E>)
  {
    if schedule == [] then s == Initial(|outcomes|)
    else
      var last := schedule[|schedule| - 1];
      exists before :: Reaches(outcomes, ctxErr, schedule[..|schedule| - 1], before)
        && Sized(before, |outcomes|) && Enabled(before, last) && s == Apply(before, last, outcomes, ctxErr)
  }

  predicate Finished<R, E>(s: State<R, E>) {
    forall i :: 0 <= i < |s.phases| ==> s.phases[i] == Done
  }

  // ----- what every step keeps

  /** The slices hold nothing before a batch ends and exactly one entry afterwards. */
  ghost predicate Invariant<R, E>(s: State<R, E>, outcomes: seq<BatchOutcome<R, E>>, ctxErr: E) {
    && Sized(s, |outcomes|)
    && Held(s.phases) <= MAX_BATCH_CONCURRENCY
    && forall i :: 0 <= i < |outcomes| ==> EntryFits(s, i, outcomes[i], ctxErr)
  }

  ghost predicate EntryFits<R, E>(s: State<R, E>, i: nat, outcome: BatchOutcome<R, E>, ctxErr: E)
    requires i < |s.phases| && i < |s.results| && i < |s.errs|
  {
    match s.phases[i]
    case Waiting => s.results[i] == None && s.errs[i] == None
    case Working => s.results[i] == None && s.errs[i] == None
    case Recorded => Written(s, i, outcome)
    case Done => Written(s, i, outcome) || (s.cancelled && s.results[i] == None && s.errs[i] == Some(ctxErr))
  }

  ghost predicate Written<R, E>(s: State<R, E>, i: nat, outcome: BatchOutcome<R, E>)
    requires i < |s.results| && i < |s.errs|
  {
    match outcome
    case Produced(r) => s.results[i] == Some(r) && s.errs[i] == None
    case Failed(e) => s.results[i] == None && s.errs[i] == Some(e)
  }

  lemma {:induction false} HeldUpdate(phases: seq<Phase>, i: nat, p: Phase)
    requires i < |phases|
    ensures Held(phases[i := p]) == Held(phases) - (if Holds(phases[i]) then 1 else 0) + (if Holds(p) then 1 else 0)
  {
    var n := |phases| - 1;
    if i < n {
      HeldUpdate(phases[..n], i, p);
      assert phases[i := p][..n] == phases[..n][i := p];
    } else {
      assert phases[i := p][..n] == phases[..n];
    }
  }

  lemma {:induction false} HeldNone(phases: seq<Phase>)
    requires forall i :: 0 <= i < |phases| ==> !Holds(phases[i])
    ensures Held(phases) == 0
  {
    if phases != [] {
      HeldNone(phases[..|phases| - 1]);
    }
  }

  lemma StepKeepsInvariant<R, E>(s: State<R, E>, a: Action, outcomes: seq<BatchOutcome<R, E>>, ctxErr: E)
    requires Invariant(s, outcomes, ctxErr) && Enabled(s, a)
    ensures Invariant(Apply(s, a, outcomes, ctxErr), outcomes, ctxErr)
  {
    var t := Apply(s, a, outcomes, ctxErr);
    if !a.Cancel? {
      HeldUpdate(s.phases, a.i, t.phases[a.i]);
    }
    forall i | 0 <= i < |outcomes|
      ensures EntryFits(t, i, outcomes[i], ctxErr)
    {
      assert EntryFits(s, i, outcomes[i], ctxErr);
    }
  }

  /** Under every schedule at most three batches hold the semaphore. */
  lemma {:induction false} ReachableInvariant<R(!new), E(!new)>(outcomes: seq<BatchOutcome<R, E>>, ctxErr: E,
                                                                schedule: seq<Action>, s: State<R, E>)
    requires Reaches(outcomes, ctxErr, schedule, s)
    ensures Invariant(s, outcomes, ctxErr)
    ensures Cancel !in schedule ==> !s.cancelled
    decreases |schedule|
  {
    if schedule == [] {
      HeldNone(s.phases);
    } else {
      var n := |schedule| - 1;
      var before :| Reaches(outcomes, ctxErr, schedule[..n], before)
        && Sized(before, |outcomes|)
        && Enabled(before, schedule[n])
        && s == Apply(before, schedule[n], outcomes, ctxErr);
      ReachableInvariant(outcomes, ctxErr, schedule[..n], before);
      StepKeepsInvariant(before, schedule[n], outcomes, ctxErr);
    }
  }

  // ----- progress

  /** A goroutine that is not done can always move, itself or by another one moving first. */
  lemma NoDeadlock<R, E>(s: State<R, E>, outcomes: seq<BatchOutcome<R, E>>, ctxErr: E) returns (a: Action)
    requires Invariant(s, outcomes, ctxErr) && !Finished(s)
    ensures !a.Cancel? && Enabled(s, a)
  {
    if i :| 0 <= i < |s.phases| && Holds(s.phases[i]) {
      a := if s.phases[i] == Working then Finish(i) else Release(i);
    } else {
      HeldNone(s.phases);
      var i :| 0 <= i < |s.phases| && s.phases[i] != Done;
      a := Acquire(i);
    }
  }

  function Steps(p: Phase): nat {
    match p case Waiting => 3 case Working => 2 case Recorded => 1 case Done => 0
  }

  function Remaining(phases: seq<Phase>): nat {
    if phases == [] then 0
    else Remaining(phases[..|phases| - 1]) + Steps(phases[|phases| - 1])
  }

  lemma {:induction false} RemainingUpdate(phases: seq<Phase>, i: nat, p: Phase)
    requires i < |phases|
    ensures Remaining(phases[i := p]) == Remaining(phases) - Steps(phases[i]) + Steps(p)
  {
    var n := |phases| - 1;
    if i < n {
      RemainingUpdate(phases[..n], i, p);
      assert phases[i := p][..n] == phases[..n][i := p];
    } else {
      assert phases[i := p][..n] == phases[..n];
    }
  }

  lemma {:induction false} RemainingInitially(phases: seq<Phase>)
    requires forall i :: 0 <= i < |phases| ==> phases[i] == Waiting
    ensures Remaining(phases) == 3 * |phases|
  {
    if phases != [] {
      RemainingInitially(phases[..|phases| - 1]);
    }
  }

  lemma StepConsumes<R, E>(s: State<R, E>, a: Action, outcomes: seq<BatchOutcome<R, E>>, ctxErr: E)
    requires Sized(s, |outcomes|) && Enabled(s, a)
    ensures var t := Apply(s, a, outcomes, ctxErr);
            if a.Cancel? then t.phases == s.phases && t.cancelled && !s.cancelled
            else t.cancelled == s.cancelled && Remaining(t.phases) < Remaining(s.phases)
  {
    if !a.Cancel? {
      RemainingUpdate(s.phases, a.i, Apply(s, a, outcomes, ctxErr).phases[a.i]);
    }
  }

  /** No schedule is longer than three actions a batch and one cancellation. */
  lemma {:induction false} ScheduleBound<R(!new), E(!new)>(outcomes: seq<BatchOutcome<R, E>>, ctxErr: E,
                                                           schedule: seq<Action>, s: State<R, E>)
    requires Reaches(outcomes, ctxErr, schedule, s)
    ensures |schedule| + Remaining(s.phases) <= 3 * |outcomes| + if s.cancelled then 1 else 0
    decreases |schedule|
  {
    if schedule == [] {
      RemainingInitially(s.phases);
    } else {
      var n := |schedule| - 1;
      var a := schedule[n];
      var before :| Reaches(outcomes, ctxErr, schedule[..n], before)
        && Sized(before, |outcomes|) && Enabled(before, a) && s == Apply(before, a, outcomes, ctxErr);
      ScheduleBound(outcomes, ctxErr, schedule[..n], before);
      StepConsumes(before, a, outcomes, ctxErr);
    }
  }

  // ----- the returned value

  datatype Returned<R, E> = AllFailed(error: Option<E>) | Partials(results: seq<Option<R>>)

  /** The first error in batch order. */
  function FirstError<E>(errs: seq<Option<E>>): Option<E> {
    if errs == [] then None else if errs[0].Some? then errs[0] else FirstError(errs[1..])
  }

  function Collected<R, E>(results: seq<Option<R>>, errs: seq<Option<E>>): Returned<R, E>
    requires |results| == |errs|
  {
    if forall i :: 0 <= i < |errs| ==> errs[i].Some? || results[i].None? then AllFailed(FirstError(errs))
    else Partials(results)
  }

  /** The loop after `wg.Wait()`; no error at all is reported as None. */
  method Collect<R, E>(results: seq<Option<R>>, errs: seq<Option<E>>) returns (r: Returned<R, E>)
    requires |results| == |errs|
    ensures r == Collected(results, errs)
  {
    var firstErr: Option<E> := None;
    var succeeded := 0;
    for i := 0 to |errs|
      invariant FirstError(errs) == if firstErr.Some? then firstErr else FirstError(errs[i..])
      invariant succeeded == 0 <==> forall j :: 0 <= j < i ==> errs[j].Some? || results[j].None?
    {
      if errs[i].Some? {
        if firstErr == None {
          firstErr := errs[i];
        }
        continue;
      }
      if results[i].Some? {
        succeeded := succeeded + 1;
      }
    }
    if succeeded == 0 {
      return AllFailed(firstErr);
    }
    return Partials(results);
  }

  function ResultsOf<R, E>(outcomes: seq<BatchOutcome<R, E>>): (r: seq<Option<R>>)
    ensures |r| == |outcomes|
  {
    seq(|outcomes|, i requires 0 <= i < |outcomes| => if outcomes[i].Produced? then Some(outcomes[i].result) else None)
  }

  function ErrorsOf<R, E>(outcomes: seq<BatchOutcome<R, E>>): (r: seq<Option<E>>)
    ensures |r| == |outcomes|
  {
    seq(|outcomes|, i requires 0 <= i < |outcomes| => if outcomes[i].Failed? then Some(outcomes[i].error) else None)
  }

  /**
   Without a cancellation the value returned after the last goroutine depends on the
   outcomes of the batches only, under every schedule.
   */
  lemma ScheduleIndependent<R(!new), E(!new)>(outcomes: seq<BatchOutcome<R, E>>, ctxErr: E, schedule: seq<Action>,
                                              s: State<R, E>)
    requires Reaches(outcomes, ctxErr, schedule, s) && Finished(s) && Cancel !in schedule
    ensures Collected(s.results, s.errs) == Collected(ResultsOf(outcomes), ErrorsOf(outcomes))
  {
    ReachableInvariant(outcomes, ctxErr, schedule, s);
    assert forall i :: 0 <= i < |outcomes| ==> EntryFits(s, i, outcomes[i], ctxErr);
    assert s.results == ResultsOf(outcomes) && s.errs == ErrorsOf(outcomes);
  }

  /** Cancelled or not, a finished run has set exactly one of the two entries of every batch. */
  lemma FinishedRunIsComplete<R(!new), E(!new)>(outcomes: seq<BatchOutcome<R, E>>, ctxErr: E, schedule: seq<Action>,
                                                s: State<R, E>)
    requires Reaches(outcomes, ctxErr, schedule, s) && Finished(s)
    ensures |s.results| == |s.errs| == |outcomes|
    ensures forall i :: 0 <= i < |outcomes| ==> (s.results[i].Some? <==> s.errs[i].None?)
    ensures forall i :: 0 <= i < |outcomes| && s.results[i].Some? ==> outcomes[i] == Produced(s.results[i].value)
  {
    ReachableInvariant(outcomes, ctxErr, schedule, s);
    forall i | 0 <= i < |outcomes|
      ensures s.results[i].Some? <==> s.errs[i].None?
      ensures s.results[i].Some? ==> outcomes[i] == Produced(s.results[i].value)
    {
      assert EntryFits(s, i, outcomes[i], ctxErr);
    }
  }
}
