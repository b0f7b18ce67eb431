/** When jobs are run: never before their time, and after a failure not before their backoff has passed. */
module JobPacing {
  import opened Common
  import opened Schedule
  import opened JobQueue
  import opened JobAccounting
  import Backoff

  predicate RetryPassed(j: Job, clock: int) {
    j.nextAttemptAt.None? || j.nextAttemptAt.value <= clock
  }

  /** The next attempt may be recorded at `now`: the backoff of the last failure has passed. */
  predicate Rested(j: Job, now: int) {
    j.history != [] && j.history[|j.history| - 1].status == RETRYING ==>
      var last := j.history[|j.history| - 1];
      now >= last.at + Backoff.BackoffMs(last.number)
  }

  /** Each recorded attempt came no earlier than the job's time, and after the backoff of the one before. */
  ghost predicate Paced(j: Job, clock: int) {
    && (forall k :: 0 <= k < |j.history| ==>
          j.history[k].at <= clock && (j.runAt.Some? ==> j.runAt.value <= j.history[k].at))
    && (j.retried == 0 ==> forall k :: 0 <= k < |j.history| - 1 && j.history[k].status == RETRYING ==>
          j.history[k + 1].at >= j.history[k].at + Backoff.BackoffMs(j.history[k].number))
    && (j.retried == 0 && j.history != [] && j.history[|j.history| - 1].status == RETRYING ==>
          var last := j.history[|j.history| - 1];
          j.nextAttemptAt == Some(last.at + Backoff.BackoffMs(last.number)))
  }

  ghost predicate AllPaced(st: State) {
    forall i :: 0 <= i < |st.jobs| ==> Paced(st.jobs[i], st.clock)
  }

  ghost predicate TodoPassed(jobs: seq<Job>, clock: int, todo: seq<nat>) {
    forall x :: 0 <= x < |todo| ==> todo[x] < |jobs| && RetryPassed(jobs[todo[x]], clock)
  }

  /** What the worker has taken is due for another attempt; a job to be followed has just succeeded. */
  ghost predicate WorkerPassed(st: State) {
    && (!st.worker.Idle? ==> TodoPassed(st.jobs, st.clock, st.worker.todo))
    && (st.worker.Loaded? || st.worker.Running? ==>
          st.worker.id < |st.jobs| && RetryPassed(st.jobs[st.worker.id], st.clock))
    && (st.worker.Continuing? ==> st.worker.id < |st.jobs| && LastSucceeded(st.jobs[st.worker.id]))
  }

  predicate LastSucceeded(j: Job) {
    j.history != [] && j.history[|j.history| - 1].status == SUCCESS
  }

  ghost predicate Pacing(st: State) {
    Inv(st) && AllPaced(st) && WorkerPassed(st)
  }

  lemma RestedWhenPassed(j: Job, clock: int)
    requires Paced(j, clock) && RetryPassed(j, clock) && j.retried == 0
    ensures Rested(j, clock)
  {
  }

  lemma PacedLater(j: Job, clock: int, clock': int)
    requires Paced(j, clock) && clock <= clock'
    ensures Paced(j, clock')
  {
  }

  /** A write that adds nothing to the history. */
  lemma PacedWithoutEntry(j: Job, j': Job, clock: int)
    requires Paced(j, clock) && j'.history == j.history && j'.runAt == j.runAt
    requires j'.retried == 0 ==> j.retried == 0 && j'.nextAttemptAt == j.nextAttemptAt
    ensures Paced(j', clock)
  {
  }

  /** A write that adds the entry of an attempt. */
  lemma PacedWithEntry(j: Job, j': Job, clock: int)
    requires Paced(j, clock) && j'.runAt == j.runAt && RunAtPassed(j, clock) && j'.retried == j.retried
    requires j.retried == 0 ==> Rested(j, clock)
    requires |j'.history| == |j.history| + 1 && j'.history[..|j.history|] == j.history
    requires var last := j'.history[|j.history|];
             last.at == clock
             && (last.status == RETRYING ==> j'.nextAttemptAt == Some(clock + Backoff.BackoffMs(last.number)))
    ensures Paced(j', clock)
  {
    hide Backoff.BackoffMs;
    assert forall k :: 0 <= k < |j.history| ==> j'.history[k] == j.history[k];
  }

  lemma TimeKeepsPacing(st: State, e: Event)
    requires Pacing(st) && Enabled(st, e)
    requires e.Tick? || e.Pause? || e.Resume? || e.ReadForCancel? || e.ReadForRetry?
    ensures AllPaced(Do(st, e)) && WorkerPassed(Do(st, e))
  {
    hide Inv, Batch;
    var st' := Do(st, e);
    forall i | 0 <= i < |st'.jobs| ensures Paced(st'.jobs[i], st'.clock) {
      PacedLater(st.jobs[i], st.clock, st'.clock);
    }
    hide Paced;
  }

  lemma EnqueueKeepsPacing(st: State, e: Event)
    requires Pacing(st) && Enabled(st, e) && e.Enqueue?
    ensures AllPaced(Do(st, e)) && WorkerPassed(Do(st, e))
  {
    hide Inv;
    assert Paced(NewJob(e.draft, st.clock, |st.jobs|), st.clock);
    hide Paced, NewJob;
  }

  lemma EditKeepsPacing(st: State, e: Event)
    requires Pacing(st) && Enabled(st, e) && e.WriteEdit?
    ensures AllPaced(Do(st, e)) && WorkerPassed(Do(st, e))
  {
    hide Inv;
    var edit := st.pending[e.admin];
    var (j, j') := (st.jobs[edit.id], Edited(st.jobs[edit.id], edit, st.clock));
    assert Paced(j, st.clock);
    PacedWithoutEntry(j, j', st.clock);
    assert RetryPassed(j, st.clock) ==> RetryPassed(j', st.clock);
    assert LastSucceeded(j) ==> LastSucceeded(j');
    hide Paced, Edited, RetryPassed, LastSucceeded;
  }

  lemma QueryKeepsPacing(st: State)
    requires Pacing(st) && st.worker.Idle?
    ensures AllPaced(Do(st, Query)) && WorkerPassed(Do(st, Query))
  {
    forall i | 0 <= i < |st.jobs| ensures st.jobs[i].priority <= 3 { assert JobOk(st.jobs[i]); }
    hide Inv, JobOk, Paced;
    var b := Batch(st.jobs, st.paused, st.clock);
    forall x | 0 <= x < |b| ensures b[x] < |st.jobs| && RetryPassed(st.jobs[b[x]], st.clock) {
      BatchIsDue(st.jobs, st.paused, st.clock, x);
    }
    hide Batch;
  }

  lemma LoadKeepsPacing(st: State)
    requires Pacing(st) && Enabled(st, Load)
    ensures AllPaced(Do(st, Load)) && WorkerPassed(Do(st, Load))
  {
    hide Inv, Paced, RetryPassed;
  }

  /** The worker writes its own job `j`, keeps the rest of its batch and goes on. */
  lemma WriteKeepsPacing(st: State, j: Job, w: Worker)
    requires Pacing(st) && (st.worker.Loaded? || st.worker.Running? || st.worker.Continuing?)
    requires Paced(j, st.clock) && !w.Idle? && !w.Loaded? && w.todo == st.worker.todo
    requires !w.Sweeping? ==> w.id == st.worker.id
    requires w.Running? ==> RetryPassed(j, st.clock)
    requires w.Continuing? ==> LastSucceeded(j)
    ensures st.worker.id < |st.jobs|
    ensures var st' := WithJob(st, st.worker.id, j, w); AllPaced(st') && WorkerPassed(st')
  {
    assert st.worker.id < |st.jobs| && st.worker.id !in st.worker.todo;
    hide Inv, Paced, RetryPassed, LastSucceeded;
  }

  lemma MarkKeepsPacing(st: State)
    requires Pacing(st) && Enabled(st, Mark)
    ensures AllPaced(Do(st, Mark)) && WorkerPassed(Do(st, Mark))
  {
    var j := st.jobs[st.worker.id];
    assert Paced(j, st.clock);
    PacedWithoutEntry(j, j.(status := PROCESSING), st.clock);
    hide Inv, Paced;
    WriteKeepsPacing(st, j.(status := PROCESSING), Running(st.worker.id, st.worker.number, st.worker.todo));
  }

  lemma RecordKeepsPacing(st: State, e: Event)
    requires Pacing(st) && Enabled(st, e) && (e.Succeed? || e.Fail?)
    ensures AllPaced(Do(st, e)) && WorkerPassed(Do(st, e))
  {
    var (j, n) := (st.jobs[st.worker.id], st.worker.number);
    assert Paced(j, st.clock) && RunAtPassed(j, st.clock);
    if j.retried == 0 {
      RestedWhenPassed(j, st.clock);
    }
    var j' := if e.Succeed? then Succeeded(j, n, st.clock) else FailedJob(j, n, st.clock);
    PacedWithEntry(j, j', st.clock);
    assert e.Succeed? ==> LastSucceeded(j');
    hide Inv, Paced, Rested, LastSucceeded, RetryPassed;
    WriteKeepsPacing(st, j', Do(st, e).worker);
  }

  lemma TakingBackKeepsPacing(st: State)
    requires Pacing(st) && Enabled(st, ContinueFails)
    ensures AllPaced(Do(st, ContinueFails)) && WorkerPassed(Do(st, ContinueFails))
  {
    var (j, n) := (st.jobs[st.worker.id], st.worker.number);
    assert Paced(j, st.clock) && RunAtPassed(j, st.clock) && Rested(j, st.clock);
    var j' := TakenBack(j, n, st.clock);
    PacedWithEntry(j, j', st.clock);
    hide Inv, Paced, Rested, LastSucceeded, RetryPassed, TakenBack;
    WriteKeepsPacing(st, j', Sweeping(st.worker.todo));
  }

  lemma ContinueKeepsPacing(st: State)
    requires Pacing(st) && Enabled(st, Continue)
    ensures AllPaced(Do(st, Continue)) && WorkerPassed(Do(st, Continue))
  {
    hide Inv, NextRun, Batch;
    var j := st.jobs[st.worker.id];
    assert Paced(j, st.clock);
    PacedWithoutEntry(j, j.(successor := Some(|st.jobs|)), st.clock);
    assert Paced(Successor(j, st.worker.id, st.clock), st.clock);
    hide Paced, Successor;
  }

  lemma NextKeepsPacing(st: State, e: Event)
    requires Pacing(st)
    ensures Pacing(Next(st, e))
  {
    NextKeepsInv(st, e);
    hide Inv, AllPaced, WorkerPassed, Do, Enabled;
    if Enabled(st, e) {
      match e
      case Enqueue(_) => EnqueueKeepsPacing(st, e);
      case WriteEdit(_) => EditKeepsPacing(st, e);
      case Query => EnabledQuery(st); QueryKeepsPacing(st);
      case Load => LoadKeepsPacing(st);
      case Mark => MarkKeepsPacing(st);
      case Continue => ContinueKeepsPacing(st);
      case ContinueFails => TakingBackKeepsPacing(st);
      case Succeed => RecordKeepsPacing(st, e);
      case Fail => RecordKeepsPacing(st, e);
      case _ => TimeKeepsPacing(st, e);
    }
  }

  lemma {:induction false} RunKeepsPacing(es: seq<Event>)
    ensures Pacing(Run(Init, es))
  {
    if es != [] {
      RunKeepsPacing(es[..|es| - 1]);
      hide Next, Pacing;
      NextKeepsPacing(Run(Init, es[..|es| - 1]), es[|es| - 1]);
    }
  }

  // ---- what holds after every run ----

  /** No job is run, and no attempt recorded, before the time it was enqueued for. */
  lemma NoRunBeforeItsTime(es: seq<Event>, i: nat)
    requires i < |Run(Init, es).jobs| && Run(Init, es).jobs[i].runAt.Some?
    ensures var st := Run(Init, es);
            var time := st.jobs[i].runAt.value;
            && (forall k :: 0 <= k < |st.jobs[i].history| ==> time <= st.jobs[i].history[k].at <= st.clock)
            && (st.worker.Running? && st.worker.id == i ==> time <= st.clock)
  {
    RunKeepsPacing(es);
    var st := Run(Init, es);
    assert Paced(st.jobs[i], st.clock);
    hide Run;
  }

  /**
   A job that nobody has retried by hand is attempted again only when the backoff of its last failure has
   passed: two minutes after the first, four after the second, and so on.
   */
  lemma FailuresAreApart(es: seq<Event>, i: nat, k: nat)
    requires var st := Run(Init, es);
             && i < |st.jobs| && st.jobs[i].retried == 0
             && k + 1 < |st.jobs[i].history| && st.jobs[i].history[k].status == RETRYING
    ensures var h := Run(Init, es).jobs[i].history;
            h[k + 1].at >= h[k].at + Backoff.BackoffMs(h[k].number)
  {
    RunKeepsPacing(es);
    assert Paced(Run(Init, es).jobs[i], Run(Init, es).clock);
  }

  /** Attempts that failed one after the other are at least the sum of their backoffs apart. */
  lemma {:induction false} FailuresCoverBackoffs(es: seq<Event>, i: nat, k: nat)
    requires var st := Run(Init, es);
             && i < |st.jobs| && st.jobs[i].retried == 0 && k < |st.jobs[i].history|
             && forall x :: 0 <= x < k ==>
                  st.jobs[i].history[x].status == RETRYING && st.jobs[i].history[x].number == x + 1
    ensures var h := Run(Init, es).jobs[i].history;
            h[k].at - h[0].at >= Backoff.TotalMinutes(k) * 60 * 1_000
  {
    hide Run;
    if k > 0 {
      FailuresCoverBackoffs(es, i, k - 1);
      FailuresAreApart(es, i, k - 1);
    }
  }
}
