/** What every run of the job machine keeps: attempt bounds, and the numbering of the history. */
module JobAccounting {
  import opened Common
  import opened Schedule
  import opened JobQueue

  predicate Live(s: Status) {
    Waiting(s) || s == PROCESSING
  }

  /** The attempts a job may use: its own and one for each manual retry. */
  function Bound(j: Job): int {
    (if j.maxAttempts > 1 then j.maxAttempts else 1) + j.retried
  }

  ghost predicate JobOk(j: Job) {
    && j.priority <= 3 && j.status != FAILED
    && j.attemptCount <= Bound(j)
    && (Live(j.status) ==> j.attemptCount < Bound(j))
    && (j.status == RETRYING ==> j.attemptCount < j.maxAttempts)
  }

  predicate RunAtPassed(j: Job, clock: int) {
    j.runAt.None? || j.runAt.value <= clock
  }

  /** A job a sweep has taken and not yet marked: it waits, unless it was cancelled meanwhile. */
  predicate Taken(jobs: seq<Job>, clock: int, i: nat) {
    i < |jobs| && (Waiting(jobs[i].status) || jobs[i].status == CANCELLED) && RunAtPassed(jobs[i], clock)
  }

  ghost predicate TodoOk(jobs: seq<Job>, clock: int, todo: seq<nat>) {
    && (forall x :: 0 <= x < |todo| ==> Taken(jobs, clock, todo[x]))
    && (forall x, y :: 0 <= x < y < |todo| ==> todo[x] != todo[y])
  }

  /** Where an administrator's write may have put the worker's job since the worker's last step. */
  predicate Overwritten(s: Status) {
    s == PENDING || s == CANCELLED
  }

  /**
   The worker's job is in the status its step left it in, or an administrator's write has come between;
   the worker holds the number it read.
   */
  ghost predicate WorkerOk(st: State) {
    match st.worker
    case Idle => true
    case Sweeping(todo) => TodoOk(st.jobs, st.clock, todo)
    case Loaded(id, n, todo) =>
      && TodoOk(st.jobs, st.clock, todo) && id !in todo
      && Taken(st.jobs, st.clock, id) && n == st.jobs[id].attemptCount + 1
      && n <= Bound(st.jobs[id])
    case Running(id, n, todo) =>
      && TodoOk(st.jobs, st.clock, todo) && id !in todo && id < |st.jobs|
      && (st.jobs[id].status == PROCESSING || Overwritten(st.jobs[id].status))
      && RunAtPassed(st.jobs[id], st.clock)
      && n == st.jobs[id].attemptCount + 1 && n <= Bound(st.jobs[id])
    case Continuing(id, n, todo) =>
      && TodoOk(st.jobs, st.clock, todo) && id !in todo && id < |st.jobs|
      && (st.jobs[id].status == SUCCESS || (Overwritten(st.jobs[id].status) && st.jobs[id].undone > 0))
      && RunAtPassed(st.jobs[id], st.clock)
      && n == st.jobs[id].attemptCount && n >= 1 && st.jobs[id].cron != Once
      && (st.jobs[id].successor.None? || st.jobs[id].undone > 0)
  }

  ghost predicate JobsOk(st: State) {
    && (forall i :: 0 <= i < |st.jobs| ==> JobOk(st.jobs[i]))
    && (forall i: nat :: i < |st.jobs| && st.jobs[i].status == PROCESSING ==>
          st.worker.Running? && st.worker.id == i)
    && (forall i: nat :: i < |st.jobs| ==> SuccessorOk(st.jobs[i]))
  }

  /** Only a job that is done, or was once, has a successor. */
  predicate SuccessorOk(j: Job) {
    j.status == SUCCESS || j.successor.None? || j.undone > 0
  }

  ghost predicate PendingOk(st: State) {
    forall a :: a in st.pending ==> st.pending[a].id < |st.jobs|
  }

  ghost predicate Inv(st: State) {
    JobsOk(st) && WorkerOk(st) && PendingOk(st)
  }

  /** Jobs already taken stay so as time passes and as jobs other than they are written. */
  lemma TodoStaysOk(jobs: seq<Job>, jobs': seq<Job>, clock: int, clock': int, todo: seq<nat>)
    requires TodoOk(jobs, clock, todo) && clock <= clock'
    requires forall i :: i in todo ==> i < |jobs'| && jobs'[i].runAt == jobs[i].runAt
    requires forall i :: i in todo ==> jobs'[i].status == jobs[i].status || Overwritten(jobs'[i].status)
    ensures TodoOk(jobs', clock', todo)
  {
    forall x | 0 <= x < |todo| ensures Taken(jobs', clock', todo[x]) {
      assert todo[x] in todo && Taken(jobs, clock, todo[x]);
    }
  }

  lemma TodoBelow(jobs: seq<Job>, clock: int, todo: seq<nat>)
    requires TodoOk(jobs, clock, todo)
    ensures forall i :: i in todo ==> Taken(jobs, clock, i)
  {
  }

  /** No job changes. */
  lemma SettingKeepsInv(st: State, e: Event)
    requires Inv(st) && Enabled(st, e)
    requires e.Tick? || e.Pause? || e.Resume? || e.ReadForCancel? || e.ReadForRetry?
    ensures Inv(Do(st, e))
  {
    hide Batch, NextRun, Due, JobOk;
    if !st.worker.Idle? {
      TodoBelow(st.jobs, st.clock, st.worker.todo);
      TodoStaysOk(st.jobs, st.jobs, st.clock, Do(st, e).clock, st.worker.todo);
    }
    hide TodoOk;
  }

  lemma EnqueuedKeepsInv(st: State, e: Event)
    requires Inv(st) && Enabled(st, e) && e.Enqueue?
    ensures Inv(Do(st, e))
  {
    hide Batch, NextRun, Due;
    var st' := Do(st, e);
    if !st.worker.Idle? {
      TodoBelow(st.jobs, st.clock, st.worker.todo);
      TodoStaysOk(st.jobs, st'.jobs, st.clock, st.clock, st.worker.todo);
    }
    hide TodoOk;
    assert JobOk(st'.jobs[|st.jobs|]);
    hide JobOk;
  }

  lemma EditedOk(j: Job, e: Edit, now: int)
    requires JobOk(j) && SuccessorOk(j)
    ensures var j' := Edited(j, e, now);
            && JobOk(j') && SuccessorOk(j') && Overwritten(j'.status) && Bound(j) <= Bound(j')
            && j.undone <= j'.undone && (j.status == SUCCESS ==> j'.undone > 0)
            && j' == j.(status := j'.status, nextAttemptAt := j'.nextAttemptAt, retried := j'.retried,
                        undone := j'.undone)
  {
  }

  /** An administrator's write leaves whatever job it hits pending or cancelled. */
  lemma EditKeepsInv(st: State, e: Event)
    requires Inv(st) && Enabled(st, e) && e.WriteEdit?
    ensures Inv(Do(st, e))
  {
    hide Batch, NextRun, Due;
    var st' := Do(st, e);
    var edit := st.pending[e.admin];
    EditedOk(st.jobs[edit.id], edit, st.clock);
    hide Edited;
    if !st.worker.Idle? {
      TodoBelow(st.jobs, st.clock, st.worker.todo);
      TodoStaysOk(st.jobs, st'.jobs, st.clock, st.clock, st.worker.todo);
    }
    hide TodoOk;
    EditKeepsJobs(st, e);
    EditKeepsPending(st, e);
    hide JobOk, JobsOk, PendingOk;
  }

  lemma EditKeepsPending(st: State, e: Event)
    requires PendingOk(st) && Enabled(st, e) && e.WriteEdit?
    ensures PendingOk(Do(st, e))
  {
    hide Edited;
  }

  lemma EditKeepsJobs(st: State, e: Event)
    requires JobsOk(st) && Enabled(st, e) && e.WriteEdit?
    ensures JobsOk(Do(st, e))
  {
    var edit := st.pending[e.admin];
    EditedOk(st.jobs[edit.id], edit, st.clock);
    hide Edited, JobOk, SuccessorOk;
  }

  lemma AdminKeepsInv(st: State, e: Event)
    requires Inv(st) && Enabled(st, e)
    requires e.Tick? || e.Enqueue? || e.Pause? || e.Resume?
          || e.ReadForCancel? || e.ReadForRetry? || e.WriteEdit?
    ensures Inv(Do(st, e))
  {
    hide *;
    match e
    case Enqueue(_) => EnqueuedKeepsInv(st, e);
    case WriteEdit(_) => EditKeepsInv(st, e);
    case _ => SettingKeepsInv(st, e);
  }

  lemma QueryKeepsInv(st: State)
    requires Inv(st) && st.worker.Idle?
    ensures Inv(Do(st, Query))
  {
    BatchHolds(st.jobs, st.paused, st.clock);
    hide Batch;
    var b := Batch(st.jobs, st.paused, st.clock);
    forall x | 0 <= x < |b| ensures Taken(st.jobs, st.clock, b[x]) {
      assert DueNow(st.jobs, st.paused, st.clock, b[x]);
    }
    forall x, y | 0 <= x < y < |b| ensures b[x] != b[y] {
      assert Before(st.jobs, b[x], b[y]);
    }
  }

  lemma LoadKeepsInv(st: State)
    requires Inv(st) && Enabled(st, Load)
    ensures Inv(Do(st, Load))
  {
    var todo := st.worker.todo;
    if todo != [] {
      assert Taken(st.jobs, st.clock, todo[0]);
      forall x | 0 <= x < |todo[1..]| ensures Taken(st.jobs, st.clock, todo[1..][x]) {
        assert todo[1..][x] == todo[x + 1];
      }
    }
  }

  /** The worker writes its own job and keeps the rest of its batch. */
  lemma WriteKeepsInv(st: State, j: Job, w: Worker)
    requires Inv(st) && (st.worker.Loaded? || st.worker.Running? || st.worker.Continuing?)
    requires JobOk(j) && j.runAt == st.jobs[st.worker.id].runAt
    requires j.status == PROCESSING ==> w.Running? && w.id == st.worker.id
    requires SuccessorOk(j)
    requires match w
             case Sweeping(todo) => todo == st.worker.todo
             case Running(id, n, todo) =>
               todo == st.worker.todo && id == st.worker.id
               && j.status == PROCESSING && n == j.attemptCount + 1 && n <= Bound(j)
             case Continuing(id, n, todo) =>
               todo == st.worker.todo && id == st.worker.id
               && j.status == SUCCESS && n == j.attemptCount && n >= 1
               && j.cron != Once && (j.successor.None? || j.undone > 0)
             case _ => false
    ensures Inv(WithJob(st, st.worker.id, j, w))
  {
    var id := st.worker.id;
    var st' := WithJob(st, id, j, w);
    TodoBelow(st.jobs, st.clock, st.worker.todo);
    assert id !in st.worker.todo;
    TodoStaysOk(st.jobs, st'.jobs, st.clock, st.clock, st.worker.todo);
  }

  lemma FailedJobOk(j: Job, number: nat, now: int)
    requires JobOk(j) && number <= Bound(j)
    ensures JobOk(FailedJob(j, number, now)) && JobOk(TakenBack(j, number, now))
  {
  }

  lemma MarkOrSucceedKeepsInv(st: State, e: Event)
    requires Inv(st) && Enabled(st, e) && (e.Mark? || e.Succeed?)
    ensures Inv(Do(st, e))
  {
    assert JobOk(st.jobs[st.worker.id]);
    if e.Mark? {
      var j := st.jobs[st.worker.id].(status := PROCESSING);
      WriteKeepsInv(st, j, Running(st.worker.id, st.worker.number, st.worker.todo));
    } else {
      WriteKeepsInv(st, Succeeded(st.jobs[st.worker.id], st.worker.number, st.clock), Do(st, e).worker);
    }
  }

  lemma FailKeepsInv(st: State, e: Event)
    requires Inv(st) && Enabled(st, e) && (e.Fail? || e.ContinueFails?)
    ensures Inv(Do(st, e))
  {
    var j := st.jobs[st.worker.id];
    assert JobOk(j);
    FailedJobOk(j, st.worker.number, st.clock);
    var j' := if e.Fail? then FailedJob(j, st.worker.number, st.clock) else TakenBack(j, st.worker.number, st.clock);
    WriteKeepsInv(st, j', Sweeping(st.worker.todo));
    hide FailedJob, TakenBack, JobOk;
    var st' := WithJob(st, st.worker.id, j', Sweeping(st.worker.todo));
    assert e.ContinueFails? ==> Do(st, e) == st'.(faults := st.faults + 1);
  }

  lemma ContinueKeepsJobs(st: State)
    requires JobsOk(st) && WorkerOk(st) && Enabled(st, Continue)
    ensures JobsOk(Do(st, Continue))
  {
    hide NextRun, TodoOk;
    var id := st.worker.id;
    var (j, next) := (st.jobs[id].(successor := Some(|st.jobs|)), Successor(st.jobs[id], id, st.clock));
    assert JobOk(st.jobs[id]) && JobOk(next) && JobOk(j) && SuccessorOk(next) && SuccessorOk(j);
    assert next.status == SCHEDULED && j.status == st.jobs[id].status;
    hide JobOk, SuccessorOk, Successor;
  }

  lemma ContinueKeepsInv(st: State)
    requires Inv(st) && Enabled(st, Continue)
    ensures Inv(Do(st, Continue))
  {
    ContinueKeepsJobs(st);
    var st' := Do(st, Continue);
    hide NextRun, JobsOk, Successor;
    TodoBelow(st.jobs, st.clock, st.worker.todo);
    TodoStaysOk(st.jobs, st'.jobs, st.clock, st.clock, st.worker.todo);
    hide TodoOk;
  }

  lemma NextKeepsInv(st: State, e: Event)
    requires Inv(st)
    ensures Inv(Next(st, e))
  {
    hide Inv, Do, Enabled;
    if Enabled(st, e) {
      match e
      case Query => EnabledQuery(st); QueryKeepsInv(st);
      case Load => LoadKeepsInv(st);
      case Mark => MarkOrSucceedKeepsInv(st, e);
      case Succeed => MarkOrSucceedKeepsInv(st, e);
      case Fail => FailKeepsInv(st, e);
      case ContinueFails => FailKeepsInv(st, e);
      case Continue => ContinueKeepsInv(st);
      case _ => AdminKeepsInv(st, e);
    }
  }

  lemma EnabledQuery(st: State)
    ensures Enabled(st, Query) <==> st.worker.Idle?
  {
  }

  lemma {:induction false} RunKeepsInv(es: seq<Event>)
    ensures Inv(Run(Init, es))
  {
    if es != [] {
      RunKeepsInv(es[..|es| - 1]);
      hide Next;
      NextKeepsInv(Run(Init, es[..|es| - 1]), es[|es| - 1]);
    }
  }

  /** Attempts stay within the job's own maximum plus one for each manual retry, and a job that will be
      retried automatically has attempts left. */
  lemma AttemptBounds(es: seq<Event>, i: nat)
    requires i < |Run(Init, es).jobs|
    ensures var j := Run(Init, es).jobs[i];
            var most := (if j.maxAttempts >= 1 then j.maxAttempts else 1) + j.retried;
            && j.attemptCount <= most
            && (j.status in {PENDING, SCHEDULED, PROCESSING, RETRYING} ==> j.attemptCount < most)
            && (j.status == RETRYING ==> j.attemptCount < j.maxAttempts)
            && j.status != FAILED
  {
    RunKeepsInv(es);
  }

  // ---- numbering ----

  /** The history numbers the attempts 1 to `attemptCount`, each once. */
  ghost predicate Numbered(j: Job) {
    |j.history| == j.attemptCount && forall i :: 0 <= i < |j.history| ==> j.history[i].number == i + 1
  }

  /** Some attempt number is in the history twice in a row. */
  ghost predicate Repeats(j: Job) {
    exists a :: 0 <= a < |j.history| - 1 && j.history[a].number == j.history[a + 1].number
  }

  ghost predicate NumberingOk(st: State) {
    && (st.faults == 0 ==> forall i :: 0 <= i < |st.jobs| ==> Numbered(st.jobs[i]))
    && (st.faults > 0 ==> exists i :: 0 <= i < |st.jobs| && Repeats(st.jobs[i]))
  }

  lemma HistoriesGrow(st: State, e: Event, i: nat)
    requires i < |st.jobs|
    ensures i < |Next(st, e).jobs| && st.jobs[i].history <= Next(st, e).jobs[i].history
    ensures st.faults <= Next(st, e).faults <= st.faults + (if e.ContinueFails? then 1 else 0)
  {
    hide NextRun, Batch;
  }

  lemma RepeatsStays(j: Job, j': Job)
    requires Repeats(j) && j.history <= j'.history
    ensures Repeats(j')
  {
    var a :| 0 <= a < |j.history| - 1 && j.history[a].number == j.history[a + 1].number;
    assert j'.history[a].number == j'.history[a + 1].number;
  }

  lemma NumberedStays(st: State, e: Event, i: nat)
    requires Inv(st) && i < |Next(st, e).jobs|
    requires i < |st.jobs| ==> Numbered(st.jobs[i])
    requires !e.ContinueFails?
    ensures Numbered(Next(st, e).jobs[i])
  {
    hide NextRun, Batch, JobsOk, TodoOk;
  }

  lemma FaultRepeats(st: State)
    requires Inv(st) && Enabled(st, ContinueFails) && Numbered(st.jobs[st.worker.id])
    ensures Repeats(Do(st, ContinueFails).jobs[st.worker.id])
  {
    hide JobsOk, TodoOk;
    var j' := Do(st, ContinueFails).jobs[st.worker.id];
    var a := |j'.history| - 2;
    assert j'.history[a].number == j'.history[a + 1].number;
  }

  lemma NextKeepsNumbering(st: State, e: Event)
    requires Inv(st) && NumberingOk(st)
    ensures NumberingOk(Next(st, e))
  {
    hide Inv, Numbered, Repeats, Do;
    var st' := Next(st, e);
    if st.faults > 0 {
      var i: nat :| i < |st.jobs| && Repeats(st.jobs[i]);
      HistoriesGrow(st, e, i);
      RepeatsStays(st.jobs[i], st'.jobs[i]);
    } else if e.ContinueFails? && Enabled(st, e) {
      FaultRepeats(st);
      HistoriesGrow(st, e, st.worker.id);
      FaultCounts(st);
    } else if Enabled(st, e) {
      NoFault(st, e);
      forall i: nat | i < |st'.jobs| ensures Numbered(st'.jobs[i]) {
        NumberedStays(st, e, i);
      }
    }
  }

  lemma FaultCounts(st: State)
    requires Enabled(st, ContinueFails)
    ensures Do(st, ContinueFails).faults == st.faults + 1
  {
  }

  lemma NoFault(st: State, e: Event)
    requires Enabled(st, e) && !e.ContinueFails?
    ensures Do(st, e).faults == st.faults
  {
    hide NextRun, Batch;
  }

  lemma {:induction false} RunKeepsNumbering(es: seq<Event>)
    ensures NumberingOk(Run(Init, es))
  {
    if es != [] {
      RunKeepsInv(es[..|es| - 1]);
      RunKeepsNumbering(es[..|es| - 1]);
      hide Next;
      NextKeepsNumbering(Run(Init, es[..|es| - 1]), es[|es| - 1]);
    }
  }

  /**
   The history of every job numbers its attempts 1 to `attemptCount` if and only if creating the next
   job of a recurring chain never failed: that failure is caught by the attempt that has already
   recorded its success, and recorded again under the same number.
   */
  lemma HistoryIsExact(es: seq<Event>)
    ensures var st := Run(Init, es);
            (forall i :: 0 <= i < |st.jobs| ==> Numbered(st.jobs[i])) <==> st.faults == 0
  {
    RunKeepsNumbering(es);
    var st := Run(Init, es);
    if st.faults > 0 {
      var i :| 0 <= i < |st.jobs| && Repeats(st.jobs[i]);
      assert !Numbered(st.jobs[i]);
    }
  }
}
