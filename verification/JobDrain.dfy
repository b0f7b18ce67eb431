/** Without new work the queue drains: every sweep that finds a job due uses up some of the attempts left. */
module JobDrain {
  import opened JobQueue
  import opened JobAccounting

  /**
   The attempts an unfinished job may still use without a manual retry, which is at least one; `held`
   tells that the worker has loaded it.
   */
  function Budget(j: Job, held: bool): nat {
    if Live(j.status) || held then
      var most := if j.maxAttempts > 1 then j.maxAttempts else 1;
      if j.attemptCount < most then most - j.attemptCount else 1
    else 0
  }

  predicate IsHeld(st: State, i: nat) {
    (st.worker.Loaded? || st.worker.Running?) && st.worker.id == i
  }

  /** The budget of the first `n` jobs together. */
  function Total(st: State, n: nat): nat
    requires n <= |st.jobs|
  {
    if n == 0 then 0 else Total(st, n - 1) + Budget(st.jobs[n - 1], IsHeld(st, n - 1))
  }

  function TotalBudget(st: State): nat {
    Total(st, |st.jobs|)
  }

  /** The step ends an attempt. */
  predicate Records(st: State, e: Event) {
    (e.Succeed? || e.Fail?) && Enabled(st, e)
  }

  /** The step begins a sweep that finds jobs due. */
  predicate FindsWork(st: State, e: Event) {
    e.Query? && Enabled(st, e) && Batch(st.jobs, st.paused, st.clock) != []
  }

  function Recorded(st: State, es: seq<Event>): nat {
    if es == [] then 0
    else Recorded(st, es[..|es| - 1])
         + if Records(Run(st, es[..|es| - 1]), es[|es| - 1]) then 1 else 0
  }

  /** The sweeps in `es` that found jobs due. */
  function Sweeps(st: State, es: seq<Event>): nat {
    if es == [] then 0
    else Sweeps(st, es[..|es| - 1])
         + if FindsWork(Run(st, es[..|es| - 1]), es[|es| - 1]) then 1 else 0
  }

  predicate NewWork(e: Event) {
    e.Enqueue? || e.ReadForRetry?
  }

  predicate NoNewWork(es: seq<Event>) {
    forall i :: 0 <= i < |es| ==> !NewWork(es[i])
  }

  /** No recurring job, and no retry by hand that has been read and not yet written. */
  ghost predicate OneShot(st: State) {
    && (forall i :: 0 <= i < |st.jobs| ==> st.jobs[i].cron.Once?)
    && !st.worker.Continuing?
    && (forall a :: a in st.pending ==> st.pending[a].CancelOf?)
  }

  // ---- what one step spends ----

  /** Every job's budget is no larger after the step, and that of job `k` is smaller by `less`. */
  lemma {:induction false} TotalFalls(st: State, st': State, k: nat, less: nat, n: nat)
    requires n <= |st.jobs| == |st'.jobs|
    requires forall i: nat :: i < |st.jobs| ==>
               Budget(st'.jobs[i], IsHeld(st', i)) + (if i == k then less else 0)
               <= Budget(st.jobs[i], IsHeld(st, i))
    ensures Total(st', n) + (if k < n then less else 0) <= Total(st, n)
  {
    if n > 0 {
      TotalFalls(st, st', k, less, n - 1);
    }
  }

  /** The step ends an attempt of job `i` or cancels it while it waits. */
  predicate Spends(st: State, e: Event, i: nat) {
    && i < |st.jobs|
    && (Records(st, e) ==> i == st.worker.id)
    && (!Records(st, e) ==>
          && e.WriteEdit? && Enabled(st, e) && st.pending[e.admin] == CancelOf(i)
          && Waiting(st.jobs[i].status) && !IsHeld(st, i))
  }

  lemma CancelBudget(st: State, e: Event, i: nat)
    requires e.WriteEdit?
    requires Inv(st) && OneShot(st) && Enabled(st, e) && !NewWork(e) && i < |st.jobs|
    ensures var st' := Do(st, e);
            && |st'.jobs| == |st.jobs|
            && Budget(st'.jobs[i], IsHeld(st', i)) + (if Spends(st, e, i) then 1 else 0)
               <= Budget(st.jobs[i], IsHeld(st, i))
  {
    hide Batch, TodoOk, WorkerOk, JobsOk;
  }

  lemma RecordBudget(st: State, e: Event, i: nat)
    requires Records(st, e)
    requires Inv(st) && OneShot(st) && Enabled(st, e) && !NewWork(e) && i < |st.jobs|
    ensures var st' := Do(st, e);
            && |st'.jobs| == |st.jobs|
            && Budget(st'.jobs[i], IsHeld(st', i)) + (if Spends(st, e, i) then 1 else 0)
               <= Budget(st.jobs[i], IsHeld(st, i))
  {
    assert JobOk(st.jobs[i]);
    hide TodoOk, JobsOk;
  }

  lemma OtherBudget(st: State, e: Event, i: nat)
    requires !Records(st, e) && !e.WriteEdit?
    requires Inv(st) && OneShot(st) && Enabled(st, e) && !NewWork(e) && i < |st.jobs|
    ensures var st' := Do(st, e);
            && |st'.jobs| == |st.jobs|
            && Budget(st'.jobs[i], IsHeld(st', i)) + (if Spends(st, e, i) then 1 else 0)
               <= Budget(st.jobs[i], IsHeld(st, i))
  {
    hide Batch, TodoOk, JobsOk;
    if e.Load? && st.worker.todo != [] {
      assert Taken(st.jobs, st.clock, st.worker.todo[0]) by { TodoHead(st); }
    }
  }

  lemma StepBudget(st: State, e: Event, i: nat)
    requires Inv(st) && OneShot(st) && Enabled(st, e) && !NewWork(e) && i < |st.jobs|
    ensures var st' := Do(st, e);
            && |st'.jobs| == |st.jobs|
            && Budget(st'.jobs[i], IsHeld(st', i)) + (if Spends(st, e, i) then 1 else 0)
               <= Budget(st.jobs[i], IsHeld(st, i))
  {
    hide Inv, Do, Enabled, Budget, IsHeld, Spends;
    if e.WriteEdit? {
      CancelBudget(st, e, i);
    } else if Records(st, e) {
      RecordBudget(st, e, i);
    } else {
      OtherBudget(st, e, i);
    }
  }

  lemma TodoHead(st: State)
    requires WorkerOk(st) && st.worker.Sweeping? && st.worker.todo != []
    ensures Taken(st.jobs, st.clock, st.worker.todo[0])
  {
  }

  lemma StepStaysOneShot(st: State, e: Event)
    requires OneShot(st) && Enabled(st, e) && !NewWork(e)
    ensures OneShot(Do(st, e)) && |Do(st, e).jobs| == |st.jobs|
    ensures Records(st, e) ==> st.worker.id < |st.jobs|
  {
    hide Batch;
  }

  /** An attempt that ends or the cancellation of a waiting job uses up budget; no step creates any. */
  lemma NextSpendsBudget(st: State, e: Event)
    requires Inv(st) && OneShot(st) && !NewWork(e)
    ensures TotalBudget(Next(st, e)) + (if Records(st, e) then 1 else 0) <= TotalBudget(st)
    ensures forall i :: Spends(st, e, i) ==> TotalBudget(Next(st, e)) + 1 <= TotalBudget(st)
    ensures OneShot(Next(st, e))
  {
    if Enabled(st, e) {
      StepStaysOneShot(st, e);
      SpendsAt(st, e, if Records(st, e) then st.worker.id else 0);
      assert Records(st, e) ==> Spends(st, e, st.worker.id);
      hide Inv, OneShot, Do, Budget, Total, IsHeld, Enabled, Spends, Records;
      forall i | Spends(st, e, i) ensures TotalBudget(Do(st, e)) + 1 <= TotalBudget(st) {
        SpendsAt(st, e, i);
      }
    } else {
      hide Inv, OneShot, Do, Budget, Total;
    }
  }

  lemma SpendsAt(st: State, e: Event, k: nat)
    requires Inv(st) && OneShot(st) && Enabled(st, e) && !NewWork(e)
    ensures TotalBudget(Do(st, e)) + (if Spends(st, e, k) then 1 else 0) <= TotalBudget(st)
  {
    var st' := Do(st, e);
    StepStaysOneShot(st, e);
    var less := if Spends(st, e, k) then 1 else 0;
    assert less == 1 ==> k < |st.jobs|;
    hide Inv, OneShot, Do, Budget, Total, IsHeld, Spends, Enabled;
    forall i: nat | i < |st.jobs|
      ensures Budget(st'.jobs[i], IsHeld(st', i)) + (if i == k then less else 0)
              <= Budget(st.jobs[i], IsHeld(st, i))
    {
      StepBudget(st, e, i);
    }
    TotalFalls(st, st', k, less, |st.jobs|);
  }

  /**
   From any state the system can reach, if no job is recurring and none is enqueued or retried by hand
   any more, then whatever else happens at most `TotalBudget` attempts are ever made.
   */
  lemma {:induction false} AttemptsAreBounded(st: State, more: seq<Event>)
    requires Inv(st) && OneShot(st) && NoNewWork(more)
    ensures Recorded(st, more) + TotalBudget(Run(st, more)) <= TotalBudget(st)
    ensures OneShot(Run(st, more)) && Inv(Run(st, more))
  {
    if more != [] {
      var before, e := more[..|more| - 1], more[|more| - 1];
      assert forall i :: 0 <= i < |before| ==> before[i] == more[i];
      AttemptsAreBounded(st, before);
      hide Next, Inv, OneShot, Spends, Records;
      NextSpendsBudget(Run(st, before), e);
      NextKeepsInv(Run(st, before), e);
    }
  }

  // ---- what one sweep spends ----

  /** The sweep under way has still to spend something: the job it has come to waits or is held. */
  predicate Owes(st: State) {
    match st.worker
    case Sweeping(todo) => todo != [] && todo[0] < |st.jobs| && Waiting(st.jobs[todo[0]].status)
    case Loaded(_, _, _) => true
    case Running(_, _, _) => true
    case _ => false
  }

  lemma FoundWorkIsOwed(st: State, e: Event)
    requires Inv(st) && FindsWork(st, e)
    ensures Owes(Next(st, e))
  {
    BatchHolds(st.jobs, st.paused, st.clock);
    hide Batch;
    assert DueNow(st.jobs, st.paused, st.clock, Batch(st.jobs, st.paused, st.clock)[0]);
  }

  /** What a sweep owes it goes on owing until it has ended an attempt, or the job is cancelled. */
  lemma DebtIsPaid(st: State, e: Event)
    requires Inv(st) && OneShot(st) && !NewWork(e) && Owes(st)
    ensures Owes(Next(st, e)) || (exists i :: Spends(st, e, i))
  {
    if Enabled(st, e) {
      hide Batch, TodoOk, JobOk;
      if Records(st, e) {
        assert Spends(st, e, st.worker.id);
      } else if e.WriteEdit? && st.worker.Sweeping? && st.pending[e.admin].id == st.worker.todo[0] {
        assert Spends(st, e, st.worker.todo[0]);
      }
    }
  }

  /** While a sweep owes something there is budget for it. */
  lemma DebtIsCovered(st: State)
    requires Inv(st) && Owes(st)
    ensures TotalBudget(st) >= 1
  {
    var i: nat := if st.worker.Sweeping? then st.worker.todo[0] else st.worker.id;
    assert i < |st.jobs| && Budget(st.jobs[i], IsHeld(st, i)) >= 1 by { hide JobsOk, TodoOk; }
    BudgetCoversJob(st, i, |st.jobs|);
  }

  /** Each sweep that found work has spent at least one unit, but for one that has still to. */
  lemma {:induction false} SweepsSpend(st: State, more: seq<Event>)
    requires Inv(st) && OneShot(st) && NoNewWork(more)
    ensures var st' := Run(st, more);
            && Inv(st') && OneShot(st')
            && (Sweeps(st, more) + TotalBudget(st') <= TotalBudget(st)
                || (Sweeps(st, more) + TotalBudget(st') <= TotalBudget(st) + 1 && Owes(st')))
  {
    if more != [] {
      var before, e := more[..|more| - 1], more[|more| - 1];
      assert forall i :: 0 <= i < |before| ==> before[i] == more[i];
      SweepsSpend(st, before);
      var st1 := Run(st, before);
      assert FindsWork(st1, e) ==> !Owes(st1);
      hide Next, Inv, OneShot, Spends, Records, FindsWork, Owes;
      NextSpendsBudget(st1, e);
      NextKeepsInv(st1, e);
      if FindsWork(st1, e) {
        FoundWorkIsOwed(st1, e);
      } else if Owes(st1) {
        DebtIsPaid(st1, e);
      }
    }
  }

  /**
   Drain: from any state the system can reach, if no job is recurring and none is enqueued or retried by
   hand any more, then whatever else happens no more than `TotalBudget` sweeps ever find a job due; and
   once so many have, and the last of them has ended, every job is SUCCESS, DEAD_LETTER or CANCELLED.
   */
  lemma QueueDrains(es: seq<Event>, more: seq<Event>)
    requires OneShot(Run(Init, es)) && NoNewWork(more)
    ensures var st := Run(Init, es);
            && Sweeps(st, more) <= TotalBudget(st)
            && (Sweeps(st, more) == TotalBudget(st) && Run(st, more).worker.Idle? ==> AllDone(Run(st, more)))
  {
    RunKeepsInv(es);
    var st := Run(Init, es);
    SweepsSpend(st, more);
    var st' := Run(st, more);
    hide Run, Inv;
    if Owes(st') {
      DebtIsCovered(st');
    }
    if TotalBudget(st') == 0 {
      forall i: nat | i < |st'.jobs| ensures st'.jobs[i].status in {SUCCESS, DEAD_LETTER, CANCELLED} {
        NothingLeft(st', i);
      }
    }
  }

  ghost predicate AllDone(st: State) {
    forall i: nat :: i < |st.jobs| ==> st.jobs[i].status in {SUCCESS, DEAD_LETTER, CANCELLED}
  }

  lemma NothingLeft(st: State, i: nat)
    requires Inv(st) && TotalBudget(st) == 0 && i < |st.jobs|
    ensures st.jobs[i].status in {SUCCESS, DEAD_LETTER, CANCELLED}
  {
    BudgetCoversJob(st, i, |st.jobs|);
    assert JobOk(st.jobs[i]);
  }

  /** A sweep that found work spends at least one unit by the time it has ended. */
  lemma SweepSpends(es: seq<Event>, more: seq<Event>)
    requires OneShot(Run(Init, es)) && NoNewWork(more)
    requires FindsWork(Run(Init, es), Query) && Run(Next(Run(Init, es), Query), more).worker.Idle?
    ensures TotalBudget(Run(Next(Run(Init, es), Query), more)) < TotalBudget(Run(Init, es))
  {
    var st := Run(Init, es);
    RunKeepsInv(es);
    NextKeepsInv(st, Query);
    NextSpendsBudget(st, Query);
    FoundWorkIsOwed(st, Query);
    OwedIsSpent(Next(st, Query), more);
  }

  lemma {:induction false} OwedIsSpent(st: State, more: seq<Event>)
    requires Inv(st) && OneShot(st) && NoNewWork(more) && Owes(st)
    ensures var st' := Run(st, more);
            && Inv(st') && OneShot(st')
            && TotalBudget(st') <= TotalBudget(st)
            && (Owes(st') || TotalBudget(st') < TotalBudget(st))
  {
    if more != [] {
      var before, e := more[..|more| - 1], more[|more| - 1];
      assert forall i :: 0 <= i < |before| ==> before[i] == more[i];
      OwedIsSpent(st, before);
      var st1 := Run(st, before);
      hide Next, Inv, OneShot, Spends, Records, Owes;
      NextSpendsBudget(st1, e);
      NextKeepsInv(st1, e);
      if Owes(st1) {
        DebtIsPaid(st1, e);
      }
    }
  }

  lemma {:induction false} BudgetCoversJob(st: State, i: nat, n: nat)
    requires i < n <= |st.jobs|
    ensures Budget(st.jobs[i], IsHeld(st, i)) <= Total(st, n)
  {
    if i < n - 1 { BudgetCoversJob(st, i, n - 1); }
  }

  /** A drained queue holds only jobs that succeeded, ran out of attempts or were cancelled. */
  lemma DrainedMeansFinished(es: seq<Event>, i: nat)
    requires var st := Run(Init, es); TotalBudget(st) == 0 && i < |st.jobs|
    ensures Run(Init, es).jobs[i].status in {SUCCESS, DEAD_LETTER, CANCELLED}
  {
    RunKeepsInv(es);
    NothingLeft(Run(Init, es), i);
  }

  /** Until then no sweep need be empty: a waiting job is due once its times have come. */
  lemma WaitingJobsComeDue(st: State, i: nat)
    requires i < |st.jobs| && Waiting(st.jobs[i].status) && st.jobs[i].queue !in st.paused
    requires st.jobs[i].runAt.Some? ==> st.jobs[i].runAt.value <= st.clock
    requires st.jobs[i].nextAttemptAt.Some? ==> st.jobs[i].nextAttemptAt.value <= st.clock
    requires forall k :: 0 <= k < |st.jobs| ==> st.jobs[k].priority <= 3
    ensures Batch(st.jobs, st.paused, st.clock) != []
  {
    BatchHolds(st.jobs, st.paused, st.clock);
    assert DueNow(st.jobs, st.paused, st.clock, i);
  }

  /** And they do come, as time passes: a waiting job of an unpaused queue is found by some later sweep. */
  lemma WaitingJobIsFoundInTime(st: State, i: nat)
    requires Inv(st) && i < |st.jobs| && Waiting(st.jobs[i].status) && st.jobs[i].queue !in st.paused
    ensures exists ms: nat ::
              var st' := Next(st, Tick(ms));
              st'.jobs == st.jobs && Batch(st'.jobs, st'.paused, st'.clock) != []
  {
    var j := st.jobs[i];
    var a := if j.runAt.Some? && j.runAt.value > st.clock then j.runAt.value - st.clock else 0;
    var b := if j.nextAttemptAt.Some? && j.nextAttemptAt.value > st.clock then j.nextAttemptAt.value - st.clock else 0;
    var ms: nat := if a > b then a else b;
    var st' := Next(st, Tick(ms));
    forall k | 0 <= k < |st.jobs| ensures st.jobs[k].priority <= 3 { assert JobOk(st.jobs[k]); }
    hide Batch;
    WaitingJobsComeDue(st', i);
  }

  /** A job that is alone and has not been attempted is attempted as often as it may be, and at least once may be. */
  lemma LoneJobIsBounded(st: State, more: seq<Event>)
    requires Inv(st) && OneShot(st) && NoNewWork(more)
    requires |st.jobs| == 1 && st.jobs[0].attemptCount == 0
    ensures Recorded(st, more) <= if st.jobs[0].maxAttempts >= 1 then st.jobs[0].maxAttempts else 1
  {
    AttemptsAreBounded(st, more);
    hide Run, Next, Inv, Recorded;
    assert Total(st, 1) == Total(st, 0) + Budget(st.jobs[0], IsHeld(st, 0));
  }

  // ---- sweeps at a time when what waits is due ----

  /** No waiting job is in a paused queue or before its time. */
  predicate AllDue(st: State) {
    forall i :: 0 <= i < |st.jobs| && Waiting(st.jobs[i].status) ==> Due(st.jobs[i], st.paused, st.clock)
  }

  /** Between sweeps, when what waits is due, the next sweep finds nothing if and only if every job is finished. */
  lemma NothingFoundIffAllDone(st: State)
    requires Inv(st) && st.worker.Idle? && AllDue(st)
    ensures Batch(st.jobs, st.paused, st.clock) == [] <==> AllDone(st)
  {
    forall i | 0 <= i < |st.jobs| ensures st.jobs[i].priority <= 3 { assert JobOk(st.jobs[i]); }
    BatchHolds(st.jobs, st.paused, st.clock);
    hide Batch, JobOk, Ordered;
    var b := Batch(st.jobs, st.paused, st.clock);
    if b == [] {
      forall i: nat | i < |st.jobs| ensures st.jobs[i].status in {SUCCESS, DEAD_LETTER, CANCELLED} {
        assert JobOk(st.jobs[i]) && !DueNow(st.jobs, st.paused, st.clock, i);
        StatusOfIdleJob(st, i);
      }
    } else {
      assert DueNow(st.jobs, st.paused, st.clock, b[0]);
      assert Waiting(st.jobs[b[0]].status);
    }
  }

  lemma StatusOfIdleJob(st: State, i: nat)
    requires Inv(st) && st.worker.Idle? && i < |st.jobs|
    ensures Waiting(st.jobs[i].status) || st.jobs[i].status in {SUCCESS, DEAD_LETTER, CANCELLED}
  {
    assert JobOk(st.jobs[i]);
  }

  /** The sweeps in `es` that began when what waited was due. */
  function TimelySweeps(st: State, es: seq<Event>): nat {
    if es == [] then 0
    else TimelySweeps(st, es[..|es| - 1])
         + if Timely(Run(st, es[..|es| - 1]), es[|es| - 1]) then 1 else 0
  }

  predicate Timely(st: State, e: Event) {
    e.Query? && Enabled(st, e) && AllDue(st)
  }

  /** Every job is finished, and no sweep has anything to do. */
  ghost predicate Finished(st: State) {
    AllDone(st) && (st.worker.Idle? || st.worker == Sweeping([]))
  }

  lemma FinishedStays(st: State, e: Event)
    requires Inv(st) && OneShot(st) && !NewWork(e)
    ensures Finished(st) ==> Finished(Next(st, e))
    ensures Timely(st, e) ==> Finished(st) || FindsWork(st, e)
  {
    if (AllDone(st) && e.Query? && Enabled(st, e)) || Timely(st, e) {
      NothingFoundIffAllDone(st);
    }
    hide Batch, Inv;
  }

  lemma {:induction false} TimelySweepsFindWork(st: State, more: seq<Event>)
    requires Inv(st) && OneShot(st) && NoNewWork(more)
    ensures Finished(Run(st, more)) || TimelySweeps(st, more) <= Sweeps(st, more)
  {
    if more != [] {
      var before, e := more[..|more| - 1], more[|more| - 1];
      assert forall i :: 0 <= i < |before| ==> before[i] == more[i];
      TimelySweepsFindWork(st, before);
      SweepsSpend(st, before);
      var st1 := Run(st, before);
      hide Next, Inv, OneShot, Timely, FindsWork, Finished, TotalBudget, NewWork;
      FinishedStays(st1, e);
    }
  }

  /**
   Without new work, `TotalBudget` sweeps at times when what waits is due are enough: whatever else
   happens between them, once the last has ended every job is SUCCESS, DEAD_LETTER or CANCELLED.
   */
  lemma TimelySweepsDrain(es: seq<Event>, more: seq<Event>)
    requires OneShot(Run(Init, es)) && NoNewWork(more)
    requires TimelySweeps(Run(Init, es), more) >= TotalBudget(Run(Init, es))
    requires Run(Run(Init, es), more).worker.Idle?
    ensures AllDone(Run(Run(Init, es), more))
  {
    RunKeepsInv(es);
    QueueDrains(es, more);
    TimelySweepsFindWork(Run(Init, es), more);
  }
}
