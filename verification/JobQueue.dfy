/**
 Background jobs: one worker that sweeps due jobs, and administrators who enqueue, cancel, retry,
 pause and resume between any two of its database statements. Jobs are numbered by creation.
 */
module JobQueue {
  import opened Common
  import opened Schedule
  import Backoff

  const SWEEP_BATCH_SIZE := 20

  datatype Status =
    | PENDING | SCHEDULED | PROCESSING | SUCCESS | RETRYING | FAILED | DEAD_LETTER | CANCELLED

  /** What a job's `cron` column holds: nothing, a recognized schedule, or other text. */
  datatype Cron = Once | Recurring(spec: Spec) | Unrecognized

  /** An attempt's number, what it came to, and when that was recorded. */
  datatype Entry = Entry(number: nat, status: Status, at: int)

  /** `priority` runs from 0 (LOW) to 3 (CRITICAL). The rest of a row is remembered, not stored: `retried`
      counts manual retries, `undone` the administrators' writes that took a SUCCESS away and `redone`
      the failures that were recorded over such a write; `chain` is the first job of the recurring jobs
      this one belongs to, `origin` the one it was created to follow and `successor` the latest created
      to follow it. */
  datatype Job = Job(priority: nat, queue: string, runAt: Option<int>, cron: Cron, maxAttempts: int,
                     status: Status, attemptCount: nat, nextAttemptAt: Option<int>,
                     history: seq<Entry>, retried: nat, undone: nat, redone: nat, chain: nat,
                     origin: Option<nat>, successor: Option<nat>)

  /** What an administrator who has read a job is about to write. */
  datatype Edit = CancelOf(id: nat) | RetryOf(id: nat)

  /** Where the worker is. `number` is the attempt number it read when it loaded the job. */
  datatype Worker =
    | Idle
    | Sweeping(todo: seq<nat>)
    | Loaded(id: nat, number: nat, todo: seq<nat>)
    | Running(id: nat, number: nat, todo: seq<nat>)
    | Continuing(id: nat, number: nat, todo: seq<nat>)

  datatype State = State(jobs: seq<Job>, paused: set<string>, worker: Worker, clock: int, faults: nat,
                         pending: map<nat, Edit>)

  datatype Draft = Draft(priority: Option<nat>, queue: Option<string>, runAt: Option<int>, cron: Cron,
                         maxAttempts: Option<int>)

  datatype Event =
    | Tick(ms: nat)
    | Enqueue(draft: Draft)
    | ReadForCancel(admin: nat, id: nat)
    | ReadForRetry(admin: nat, id: nat)
    | WriteEdit(admin: nat)
    | Pause(queue: string)
    | Resume(queue: string)
    | Query
    | Load
    | Mark
    | Succeed
    | Fail
    | Continue
    | ContinueFails

  const Init := State([], {}, Idle, 0, 0, map[])

  // ---- which jobs a sweep takes ----

  predicate Waiting(s: Status) {
    s == PENDING || s == SCHEDULED || s == RETRYING
  }

  predicate Due(j: Job, paused: set<string>, now: int) {
    && Waiting(j.status) && j.queue !in paused
    && (j.runAt.None? || j.runAt.value <= now)
    && (j.nextAttemptAt.None? || j.nextAttemptAt.value <= now)
  }

  /** The due jobs numbered below `n` that have priority `p`, oldest first. */
  function DueAt(jobs: seq<Job>, paused: set<string>, now: int, p: nat, n: nat): seq<nat>
    requires n <= |jobs|
  {
    if n == 0 then []
    else DueAt(jobs, paused, now, p, n - 1)
         + (if jobs[n - 1].priority == p && Due(jobs[n - 1], paused, now) then [n - 1] else [])
  }

  /** All due jobs of priorities `p` down to 0, most urgent first. */
  function DueFrom(jobs: seq<Job>, paused: set<string>, now: int, p: nat): seq<nat> {
    DueAt(jobs, paused, now, p, |jobs|) + if p == 0 then [] else DueFrom(jobs, paused, now, p - 1)
  }

  function Batch(jobs: seq<Job>, paused: set<string>, now: int): seq<nat> {
    var due := DueFrom(jobs, paused, now, 3);
    if |due| <= SWEEP_BATCH_SIZE then due else due[..SWEEP_BATCH_SIZE]
  }

  // ---- the writes ----

  function NewJob(d: Draft, now: int, chain: nat): Job {
    Job(d.priority.GetOr(1), d.queue.GetOr("default"), d.runAt, d.cron, d.maxAttempts.GetOr(5),
        if d.runAt.Some? && d.runAt.value > now then SCHEDULED else PENDING,
        0, None, [], 0, 0, 0, chain, None, None)
  }

  /** The update behind a cancellation or a retry, whatever the job is by then. */
  function Edited(j: Job, e: Edit, now: int): Job {
    var undone := if j.status == SUCCESS then j.undone + 1 else j.undone;
    match e
    case CancelOf(_) => j.(status := CANCELLED, undone := undone)
    case RetryOf(_) =>
      j.(status := PENDING, nextAttemptAt := Some(now), retried := j.retried + 1, undone := undone)
  }

  function Succeeded(j: Job, number: nat, now: int): Job {
    j.(status := SUCCESS, attemptCount := number, history := j.history + [Entry(number, SUCCESS, now)])
  }

  function FailedJob(j: Job, number: nat, now: int): Job {
    var exhausted := number >= j.maxAttempts;
    var status := if exhausted then DEAD_LETTER else RETRYING;
    j.(status := status, attemptCount := number,
       nextAttemptAt := if exhausted then None else Some(now + Backoff.BackoffMs(number)),
       history := j.history + [Entry(number, status, now)])
  }

  /** The failure to create a successor, recorded by the attempt that had recorded its success. */
  function TakenBack(j: Job, number: nat, now: int): Job {
    FailedJob(j, number, now).(redone := if j.status == SUCCESS then j.redone else j.redone + 1)
  }

  function Successor(j: Job, id: nat, now: int): Job
    requires CanContinue(j)
  {
    Job(j.priority, j.queue, Some(NextRun(j.cron.spec, now)), j.cron, j.maxAttempts, SCHEDULED,
        0, None, [], 0, 0, 0, j.chain, Some(id), None)
  }

  predicate CanContinue(j: Job) {
    j.cron.Recurring? && (j.cron.spec.Weekly? ==> j.cron.spec.day <= 6)
  }

  predicate Enabled(st: State, e: Event) {
    match e
    case Enqueue(d) => d.priority.GetOr(1) <= 3
    case ReadForCancel(a, id) => a !in st.pending && id < |st.jobs| && Waiting(st.jobs[id].status)
    case ReadForRetry(a, id) =>
      a !in st.pending && id < |st.jobs| && st.jobs[id].status in {FAILED, DEAD_LETTER}
    case WriteEdit(a) => a in st.pending && st.pending[a].id < |st.jobs|
    case Query => st.worker.Idle?
    case Load =>
      st.worker.Sweeping? && (st.worker.todo != [] ==> st.worker.todo[0] < |st.jobs|)
    case Mark => st.worker.Loaded? && st.worker.id < |st.jobs|
    case Succeed => st.worker.Running? && st.worker.id < |st.jobs|
    case Fail => st.worker.Running? && st.worker.id < |st.jobs|
    case Continue =>
      st.worker.Continuing? && st.worker.id < |st.jobs| && CanContinue(st.jobs[st.worker.id])
    case ContinueFails => st.worker.Continuing? && st.worker.id < |st.jobs|
    case _ => true
  }

  function WithJob(st: State, id: nat, j: Job, w: Worker): State
    requires id < |st.jobs|
  {
    st.(jobs := st.jobs[id := j], worker := w)
  }

  function Do(st: State, e: Event): State
    requires Enabled(st, e)
  {
    var w := st.worker;
    match e
    case Tick(ms) => st.(clock := st.clock + ms)
    case Enqueue(d) => st.(jobs := st.jobs + [NewJob(d, st.clock, |st.jobs|)])
    case ReadForCancel(a, id) => st.(pending := st.pending[a := CancelOf(id)])
    case ReadForRetry(a, id) => st.(pending := st.pending[a := RetryOf(id)])
    case WriteEdit(a) =>
      var e := st.pending[a];
      WithJob(st, e.id, Edited(st.jobs[e.id], e, st.clock), w).(pending := st.pending - {a})
    case Pause(q) => st.(paused := st.paused + {q})
    case Resume(q) => st.(paused := st.paused - {q})
    case Query => st.(worker := Sweeping(Batch(st.jobs, st.paused, st.clock)))
    case Load =>
      if w.todo == [] then st.(worker := Idle)
      else if st.jobs[w.todo[0]].status == CANCELLED then st.(worker := Sweeping(w.todo[1..]))
      else st.(worker := Loaded(w.todo[0], st.jobs[w.todo[0]].attemptCount + 1, w.todo[1..]))
    case Mark =>
      WithJob(st, w.id, st.jobs[w.id].(status := PROCESSING), Running(w.id, w.number, w.todo))
    case Succeed =>
      WithJob(st, w.id, Succeeded(st.jobs[w.id], w.number, st.clock),
              if st.jobs[w.id].cron.Once? then Sweeping(w.todo)
              else Continuing(w.id, w.number, w.todo))
    case Fail =>
      WithJob(st, w.id, FailedJob(st.jobs[w.id], w.number, st.clock), Sweeping(w.todo))
    case Continue =>
      var j := st.jobs[w.id];
      st.(jobs := st.jobs[w.id := j.(successor := Some(|st.jobs|))] + [Successor(j, w.id, st.clock)],
          worker := Sweeping(w.todo))
    case ContinueFails =>
      WithJob(st, w.id, TakenBack(st.jobs[w.id], w.number, st.clock), Sweeping(w.todo))
             .(faults := st.faults + 1)
  }

  function Next(st: State, e: Event): State {
    if Enabled(st, e) then Do(st, e) else st
  }

  function Run(st: State, es: seq<Event>): State {
    if es == [] then st else Next(Run(st, es[..|es| - 1]), es[|es| - 1])
  }

  // ---- the batch ----

  /** Sweep order: higher priority first, then older first. */
  predicate Before(jobs: seq<Job>, a: nat, b: nat) {
    && a < |jobs| && b < |jobs|
    && (jobs[a].priority > jobs[b].priority || (jobs[a].priority == jobs[b].priority && a < b))
  }

  predicate Ordered(jobs: seq<Job>, d: seq<nat>) {
    forall x, y :: 0 <= x < y < |d| ==> Before(jobs, d[x], d[y])
  }

  predicate DueNow(jobs: seq<Job>, paused: set<string>, now: int, i: nat) {
    i < |jobs| && Due(jobs[i], paused, now)
  }

  lemma {:induction false} DueAtHolds(jobs: seq<Job>, paused: set<string>, now: int, p: nat, n: nat)
    requires n <= |jobs|
    ensures var d := DueAt(jobs, paused, now, p, n);
            && (forall i: nat :: i in d <==> i < n && jobs[i].priority == p && DueNow(jobs, paused, now, i))
            && Ordered(jobs, d)
  {
    if n > 0 {
      DueAtHolds(jobs, paused, now, p, n - 1);
      var d := DueAt(jobs, paused, now, p, n - 1);
      forall x | 0 <= x < |d| ensures d[x] < n - 1 && jobs[d[x]].priority == p {
        assert d[x] in d;
      }
    }
  }

  lemma OrderedAppend(jobs: seq<Job>, d: seq<nat>, d': seq<nat>)
    requires Ordered(jobs, d) && Ordered(jobs, d')
    requires forall a: nat, b: nat :: a in d && b in d' ==> Before(jobs, a, b)
    ensures Ordered(jobs, d + d')
  {
    hide Before;
    var all := d + d';
    forall x, y | 0 <= x < y < |all| ensures Before(jobs, all[x], all[y]) {
      if x < |d| <= y {
        assert all[x] in d && all[y] in d';
      }
    }
  }

  lemma {:induction false} DueFromHolds(jobs: seq<Job>, paused: set<string>, now: int, p: nat)
    ensures var d := DueFrom(jobs, paused, now, p);
            && (forall i: nat :: i in d <==> DueNow(jobs, paused, now, i) && jobs[i].priority <= p)
            && Ordered(jobs, d)
  {
    hide Ordered, Due, DueAt;
    DueAtHolds(jobs, paused, now, p, |jobs|);
    if p > 0 {
      DueFromHolds(jobs, paused, now, p - 1);
      OrderedAppend(jobs, DueAt(jobs, paused, now, p, |jobs|), DueFrom(jobs, paused, now, p - 1));
    } else {
      var d := DueAt(jobs, paused, now, p, |jobs|);
      assert d + [] == d;
    }
  }

  /** The batch in terms of `Due` and `Before`. */
  lemma BatchHolds(jobs: seq<Job>, paused: set<string>, now: int)
    requires forall i :: 0 <= i < |jobs| ==> jobs[i].priority <= 3
    ensures var b := Batch(jobs, paused, now);
            && |b| <= 20 && Ordered(jobs, b)
            && (forall x :: 0 <= x < |b| ==> DueNow(jobs, paused, now, b[x]))
            && (forall i: nat :: DueNow(jobs, paused, now, i) && i !in b ==>
                  |b| == 20 && forall x :: 0 <= x < |b| ==> Before(jobs, b[x], i))
  {
    DueFromHolds(jobs, paused, now, 3);
    hide DueFrom, Due, Before;
    var d, b := DueFrom(jobs, paused, now, 3), Batch(jobs, paused, now);
    forall x | 0 <= x < |b| ensures DueNow(jobs, paused, now, b[x]) {
      assert b[x] == d[x] && d[x] in d;
    }
    forall y | 0 <= y < |b| ensures d[y] in b {
      assert b[y] == d[y];
    }
    forall i: nat | DueNow(jobs, paused, now, i) && i !in b
      ensures |b| == 20 && forall x :: 0 <= x < |b| ==> Before(jobs, b[x], i)
    {
      assert i in d;
      var y :| 0 <= y < |d| && d[y] == i;
    }
  }

  /**
   Every job that a sweep takes waits, in a queue that is not paused, and neither of its times is still to
   come. There are twenty at most, each once, more urgent ones first and older ones before younger.
   */
  lemma BatchIsDue(jobs: seq<Job>, paused: set<string>, now: int, x: nat)
    requires forall i :: 0 <= i < |jobs| ==> jobs[i].priority <= 3
    requires x < |Batch(jobs, paused, now)|
    ensures var b := Batch(jobs, paused, now);
            && |b| <= 20 && b[x] < |jobs|
            && var j := jobs[b[x]];
            && j.status in {PENDING, SCHEDULED, RETRYING} && j.queue !in paused
            && (j.runAt.Some? ==> j.runAt.value <= now)
            && (j.nextAttemptAt.Some? ==> j.nextAttemptAt.value <= now)
            && forall y :: x < y < |b| ==>
                 && b[y] < |jobs|
                 && (jobs[b[y]].priority < j.priority || (jobs[b[y]].priority == j.priority && b[y] > b[x]))
  {
    BatchHolds(jobs, paused, now);
    hide Batch;
    var b := Batch(jobs, paused, now);
    assert DueNow(jobs, paused, now, b[x]);
    forall y | x < y < |b| ensures Before(jobs, b[x], b[y]) {}
  }

  /**
   A job that waits, in a queue that is not paused and with its times come, is left out only behind twenty
   jobs that are more urgent, or as urgent and older.
   */
  lemma BatchIsTheFirstTwenty(jobs: seq<Job>, paused: set<string>, now: int, i: nat)
    requires forall k :: 0 <= k < |jobs| ==> jobs[k].priority <= 3
    requires i < |jobs| && i !in Batch(jobs, paused, now)
    requires jobs[i].status in {PENDING, SCHEDULED, RETRYING} && jobs[i].queue !in paused
    requires jobs[i].runAt.Some? ==> jobs[i].runAt.value <= now
    requires jobs[i].nextAttemptAt.Some? ==> jobs[i].nextAttemptAt.value <= now
    ensures var b := Batch(jobs, paused, now);
            && |b| == 20
            && forall x :: 0 <= x < 20 ==>
                 && b[x] < |jobs|
                 && (jobs[b[x]].priority > jobs[i].priority || (jobs[b[x]].priority == jobs[i].priority && b[x] < i))
  {
    BatchHolds(jobs, paused, now);
    assert DueNow(jobs, paused, now, i);
    hide Batch;
    var b := Batch(jobs, paused, now);
    forall x | 0 <= x < |b| ensures Before(jobs, b[x], i) {}
  }
}
