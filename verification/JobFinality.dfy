/** Which finished jobs are never run or written again. */
module JobFinality {
  import opened Schedule
  import opened JobQueue
  import opened JobAccounting

  /** The worker is in the middle of an attempt of this job. */
  predicate HeldBy(w: Worker, i: nat) {
    (w.Continuing? || w.Loaded? || w.Running?) && w.id == i
  }

  /** The administrator's write would change the finished job `j`. */
  predicate Disturbs(e: Edit, j: Job, i: nat) {
    e.id == i && (e.RetryOf? || j.status == SUCCESS)
  }

  /** Nothing that has begun is about to write job `i`. */
  ghost predicate Settled(st: State, i: nat) {
    && i < |st.jobs| && !HeldBy(st.worker, i)
    && forall a :: a in st.pending ==> !Disturbs(st.pending[a], st.jobs[i], i)
  }

  predicate IsDone(st: State, i: nat) {
    i < |st.jobs| && (st.jobs[i].status == SUCCESS || st.jobs[i].status == CANCELLED)
  }

  lemma SettledJobStays(st: State, e: Event, i: nat)
    requires Inv(st) && IsDone(st, i) && Settled(st, i) && Enabled(st, e)
    ensures i < |Do(st, e).jobs| && Do(st, e).jobs[i] == st.jobs[i]
  {
    hide Batch, NextRun, JobOk, JobsOk, TodoOk, NewJob, FailedJob, TakenBack, Successor, Succeeded;
  }

  lemma WorkerStaysAway(st: State, e: Event, i: nat)
    requires Inv(st) && IsDone(st, i) && Settled(st, i) && Enabled(st, e)
    ensures !HeldBy(Do(st, e).worker, i)
  {
    hide Batch, NextRun, JobOk, JobsOk, NewJob, FailedJob, TakenBack, Successor, Succeeded, Edited;
    if st.worker.Sweeping? && st.worker.todo != [] {
      assert Taken(st.jobs, st.clock, st.worker.todo[0]);
    }
  }

  lemma NobodyStartsToWrite(st: State, e: Event, i: nat)
    requires IsDone(st, i) && Settled(st, i) && Enabled(st, e)
    ensures forall a :: a in Do(st, e).pending ==> !Disturbs(Do(st, e).pending[a], st.jobs[i], i)
  {
    hide Batch, NextRun, NewJob, FailedJob, TakenBack, Successor, Succeeded, Edited;
  }

  lemma SettledStays(st: State, e: Event, i: nat)
    requires Inv(st) && IsDone(st, i) && Settled(st, i)
    ensures var st' := Next(st, e);
            i < |st'.jobs| && st'.jobs[i] == st.jobs[i] && Settled(st', i)
  {
    if Enabled(st, e) {
      SettledJobStays(st, e, i);
      WorkerStaysAway(st, e, i);
      NobodyStartsToWrite(st, e, i);
      hide Do, Enabled, Inv, Disturbs, HeldBy;
    }
  }

  lemma {:induction false} SettledForGood(st: State, more: seq<Event>, i: nat)
    requires Inv(st) && IsDone(st, i) && Settled(st, i)
    ensures var st' := Run(st, more);
            && Inv(st') && i < |st'.jobs| && st'.jobs[i] == st.jobs[i] && Settled(st', i)
  {
    hide Next, Inv, Settled;
    if more != [] {
      var before := Run(st, more[..|more| - 1]);
      SettledForGood(st, more[..|more| - 1], i);
      SettledStays(before, more[|more| - 1], i);
      NextKeepsInv(before, more[|more| - 1]);
    }
  }

  /** A step that writes a finished job, where one is about to. */
  lemma UnsettledIsWritten(st: State, i: nat) returns (e: Event)
    requires Inv(st) && IsDone(st, i) && !Settled(st, i)
    ensures i < |Next(st, e).jobs| && Next(st, e).jobs[i] != st.jobs[i]
  {
    hide Batch, NextRun, JobOk, NewJob, Successor;
    if HeldBy(st.worker, i) {
      e := if st.worker.Loaded? then Mark else if st.worker.Running? then Fail else ContinueFails;
      assert e.Mark? || |Next(st, e).jobs[i].history| == |st.jobs[i].history| + 1;
    } else {
      var a :| a in st.pending && Disturbs(st.pending[a], st.jobs[i], i);
      e := WriteEdit(a);
    }
  }

  /**
   A job that succeeded or was cancelled is never run or written again if and only if the worker is not
   in the middle of it and no administrator who read it earlier is about to write it.
   */
  lemma FinishedIsFinal(es: seq<Event>, i: nat)
    requires IsDone(Run(Init, es), i)
    ensures var st := Run(Init, es);
            (forall more :: i < |Run(st, more).jobs| && Run(st, more).jobs[i] == st.jobs[i]) <==> Settled(st, i)
  {
    RunKeepsInv(es);
    var st := Run(Init, es);
    hide Next, Inv;
    if Settled(st, i) {
      forall more ensures i < |Run(st, more).jobs| && Run(st, more).jobs[i] == st.jobs[i] {
        SettledForGood(st, more, i);
      }
    } else {
      var e := UnsettledIsWritten(st, i);
      OneStep(st, e);
      assert Run(st, [e]).jobs[i] != st.jobs[i];
    }
  }

  lemma OneStep(st: State, e: Event)
    ensures Run(st, [e]) == Next(st, e)
  {
    assert [e][..0] == [];
    assert Run(st, []) == st;
  }

  /** A cancellation that falls between the worker's load and its mark is always lost. */
  lemma CancelBetweenLoadAndMarkIsLost(st: State, a: nat)
    requires Inv(st) && st.worker.Loaded? && Enabled(st, ReadForCancel(a, st.worker.id))
    ensures var id := st.worker.id;
            var st' := Next(Next(st, ReadForCancel(a, id)), WriteEdit(a));
            && st'.jobs[id].status == CANCELLED
            && Next(st', Mark).jobs[id].status == PROCESSING
            && Next(st', Mark).worker == Running(id, st.worker.number, st.worker.todo)
  {
    hide Batch, NextRun, JobOk, TodoOk;
    var st1 := Next(st, ReadForCancel(a, st.worker.id));
    assert st1 == st.(pending := st.pending[a := CancelOf(st.worker.id)]);
  }

  /** A successor that cannot be created turns a recorded success into a failure. */
  lemma SuccessIsTakenBack(st: State)
    requires Inv(st) && Enabled(st, ContinueFails)
    ensures var id := st.worker.id;
            var j := st.jobs[id];
            var j' := Next(st, ContinueFails).jobs[id];
            && (j.status == SUCCESS || j.undone > 0)
            && j'.status == (if j.attemptCount >= j.maxAttempts then DEAD_LETTER else RETRYING)
            && j'.history == j.history + [Entry(j.attemptCount, j'.status, st.clock)]
  {
    hide Batch, NextRun, JobOk, TodoOk;
  }

  /** Two administrators read a dead-lettered job, and one of them retries it. */
  function Retried(st: State, i: nat, a: nat, b: nat): State {
    Next(Next(Next(st, ReadForRetry(a, i)), ReadForRetry(b, i)), WriteEdit(a))
  }

  lemma RetriedIs(st: State, i: nat, a: nat, b: nat)
    requires Enabled(st, ReadForRetry(a, i)) && b !in st.pending && a != b
    ensures Retried(st, i, a, b)
         == st.(jobs := st.jobs[i := Edited(st.jobs[i], RetryOf(i), st.clock)], pending := st.pending[b := RetryOf(i)])
  {
    hide Edited;
    var s1 := Next(st, ReadForRetry(a, i));
    assert s1 == st.(pending := st.pending[a := RetryOf(i)]);
    var s2 := Next(s1, ReadForRetry(b, i));
    assert s2 == s1.(pending := s1.pending[b := RetryOf(i)]);
    assert s2.pending - {a} == st.pending[b := RetryOf(i)];
  }

  predicate Writes(es: seq<Event>, b: nat) {
    exists k :: 0 <= k < |es| && es[k] == WriteEdit(b)
  }

  lemma {:induction false} PendingStays(st: State, es: seq<Event>, b: nat, i: nat)
    requires b in st.pending && st.pending[b] == RetryOf(i) && i < |st.jobs| && !Writes(es, b)
    ensures var st' := Run(st, es);
            b in st'.pending && st'.pending[b] == RetryOf(i) && i < |st'.jobs|
  {
    if es != [] {
      var before := es[..|es| - 1];
      assert forall k :: 0 <= k < |before| ==> before[k] == es[k];
      PendingStays(st, before, b, i);
      assert es[|es| - 1] != WriteEdit(b);
      hide Batch, NewJob, FailedJob, TakenBack, Successor, Succeeded, Edited, CanContinue, Waiting;
    }
  }

  /**
   Whenever a sweep then runs the job well before the other administrator writes, that retry sets the
   successful job pending, to be run again.
   */
  lemma LateRetryUndoesSuccess(st: State, i: nat, a: nat, b: nat, more: seq<Event>)
    requires Enabled(st, ReadForRetry(a, i)) && b !in st.pending && a != b && !Writes(more, b)
    requires var st' := Run(Retried(st, i, a, b), more);
             st'.worker.Running? && st'.worker.id == i
    ensures var st1 := Next(Run(Retried(st, i, a, b), more), Succeed);
            var st2 := Next(st1, WriteEdit(b));
            && i < |st1.jobs| && st1.jobs[i].status == SUCCESS
            && i < |st2.jobs| && st2.jobs[i].status == PENDING && st2.jobs[i].undone == st1.jobs[i].undone + 1
  {
    RetriedIs(st, i, a, b);
    PendingStays(Retried(st, i, a, b), more, b, i);
    hide Run, Retried, Writes, Batch, NewJob, FailedJob, TakenBack, Successor;
  }

  /** A sweep in which the first `n` jobs of the batch fail. */
  function Rounds(n: nat): seq<Event> {
    if n == 0 then [Query] else Rounds(n - 1) + [Load, Mark, Fail]
  }

  lemma RunOn(st: State, es: seq<Event>, e: Event)
    ensures Run(st, es + [e]) == Next(Run(st, es), e)
  {
    assert (es + [e])[..|es|] == es;
  }

  lemma OneRound(st: State)
    requires st.worker.Sweeping? && st.worker.todo != [] && st.worker.todo[0] < |st.jobs|
    requires Waiting(st.jobs[st.worker.todo[0]].status)
    ensures var (s, id) := (Next(Next(st, Load), Mark), st.worker.todo[0]);
            && s.worker == Running(id, st.jobs[id].attemptCount + 1, st.worker.todo[1..])
            && Next(s, Fail).worker == Sweeping(st.worker.todo[1..]) && |Next(s, Fail).jobs| == |st.jobs|
            && forall j :: 0 <= j < |st.jobs| && j != id ==> Next(s, Fail).jobs[j] == st.jobs[j]
  {
    hide FailedJob;
    var id := st.worker.todo[0];
    assert Next(st, Load) == st.(worker := Loaded(id, st.jobs[id].attemptCount + 1, st.worker.todo[1..]));
  }

  /** A batch names each job once, and what it names waits. */
  lemma BatchWaits(st: State)
    requires forall i :: 0 <= i < |st.jobs| ==> st.jobs[i].priority <= 3
    ensures var batch := Batch(st.jobs, st.paused, st.clock);
            && (forall y :: 0 <= y < |batch| ==> batch[y] < |st.jobs| && Waiting(st.jobs[batch[y]].status))
            && (forall x, y :: 0 <= x < y < |batch| ==> batch[x] != batch[y])
  {
    BatchHolds(st.jobs, st.paused, st.clock);
    hide Batch, Waiting;
    var batch := Batch(st.jobs, st.paused, st.clock);
    assert forall y :: 0 <= y < |batch| ==> DueNow(st.jobs, st.paused, st.clock, batch[y]);
    forall x, y | 0 <= x < y < |batch| ensures batch[x] != batch[y] {
      assert Before(st.jobs, batch[x], batch[y]);
    }
  }

  /** The worker has come to the part of `batch` from `n` on, in which every job still waits. */
  predicate HasLeft(st: State, batch: seq<nat>, n: nat) {
    && n <= |batch| && st.worker == Sweeping(batch[n..])
    && forall y :: n <= y < |batch| ==> batch[y] < |st.jobs| && Waiting(st.jobs[batch[y]].status)
  }

  lemma RoundLeavesTheRest(st: State, batch: seq<nat>, n: nat)
    requires HasLeft(st, batch, n) && n < |batch|
    requires forall x, y :: 0 <= x < y < |batch| ==> batch[x] != batch[y]
    ensures HasLeft(Next(Next(Next(st, Load), Mark), Fail), batch, n + 1)
  {
    OneRound(st);
    hide Next, Waiting;
    assert batch[n..][1..] == batch[n + 1..];
  }

  lemma QueryLeavesAll(st: State)
    requires st.worker.Idle?
    requires forall i :: 0 <= i < |st.jobs| ==> st.jobs[i].priority <= 3
    ensures HasLeft(Next(st, Query), Batch(st.jobs, st.paused, st.clock), 0)
  {
    BatchWaits(st);
    hide Batch, Waiting;
    var batch := Batch(st.jobs, st.paused, st.clock);
    assert Next(st, Query) == st.(worker := Sweeping(batch)) && batch[0..] == batch;
  }

  lemma RunRound(st: State, es: seq<Event>)
    ensures Run(st, es + [Load, Mark, Fail]) == Next(Next(Next(Run(st, es), Load), Mark), Fail)
  {
    RunOn(st, es, Load);
    RunOn(st, es + [Load], Mark);
    RunOn(st, es + [Load] + [Mark], Fail);
    hide Run, Next;
    assert es + [Load, Mark, Fail] == es + [Load] + [Mark] + [Fail];
  }

  lemma {:induction false} RoundsLeaveTheRest(st: State, n: nat)
    requires st.worker.Idle? && forall i :: 0 <= i < |st.jobs| ==> st.jobs[i].priority <= 3
    requires n <= |Batch(st.jobs, st.paused, st.clock)|
    ensures HasLeft(Run(st, Rounds(n)), Batch(st.jobs, st.paused, st.clock), n)
  {
    var batch := Batch(st.jobs, st.paused, st.clock);
    if n == 0 {
      QueryLeavesAll(st);
      OneStep(st, Query);
      hide Batch, Run, Next, HasLeft;
    } else {
      RoundsLeaveTheRest(st, n - 1);
      BatchWaits(st);
      RunRound(st, Rounds(n - 1));
      hide Batch, Run, Next, HasLeft, Waiting;
      RoundLeavesTheRest(Run(st, Rounds(n - 1)), batch, n - 1);
    }
  }

  /** A sweep can come to run any job of its batch. */
  lemma SweepReaches(st: State, x: nat, b: nat)
    requires st.worker.Idle? && forall i :: 0 <= i < |st.jobs| ==> st.jobs[i].priority <= 3
    requires x < |Batch(st.jobs, st.paused, st.clock)|
    ensures var s := Run(st, Rounds(x) + [Load] + [Mark]);
            s.worker.Running? && s.worker.id == Batch(st.jobs, st.paused, st.clock)[x]
    ensures !Writes(Rounds(x) + [Load] + [Mark], b)
  {
    RoundsLeaveTheRest(st, x);
    RunOn(st, Rounds(x), Load);
    RunOn(st, Rounds(x) + [Load], Mark);
    hide Batch, Run, Next, HasLeft, Writes, Rounds;
    RoundsWriteNot(x, b);
    MarkReaches(Run(st, Rounds(x)), Batch(st.jobs, st.paused, st.clock), x);
  }

  lemma MarkReaches(st: State, batch: seq<nat>, n: nat)
    requires HasLeft(st, batch, n) && n < |batch|
    ensures var s := Next(Next(st, Load), Mark); s.worker.Running? && s.worker.id == batch[n]
  {
    OneRound(st);
    hide Next, Waiting;
  }

  lemma RoundsWriteNot(n: nat, b: nat)
    ensures !Writes(Rounds(n) + [Load] + [Mark], b)
  {
    RoundsWriteNothing(n);
    hide Rounds;
    var es := Rounds(n) + [Load] + [Mark];
    assert forall k :: 0 <= k < |es| ==> es[k] in Rounds(n) || es[k] in {Load, Mark};
  }

  lemma {:induction false} RoundsWriteNothing(n: nat)
    ensures forall e :: e in Rounds(n) ==> !e.WriteEdit?
  {
    if n > 0 { RoundsWriteNothing(n - 1); }
  }
}
