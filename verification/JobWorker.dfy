/**
 The queue service and its worker in the source's own form, updating jobs in place. `trace` is the
 run of the `JobQueue` machine the updates amount to.
 */
module JobWorker {
  import opened Common
  import opened Schedule
  import opened JobQueue
  import opened JobAccounting
  import Backoff

  datatype AdminResult = Updated | NotFound | BadRequest

  /** What one attempt, of a job read as `j`, makes of it; `next` numbers the successor it creates. */
  function Attempted(j: Job, ok: bool, created: bool, clock: int, next: nat): Job {
    var number := j.attemptCount + 1;
    if j.status == CANCELLED then j
    else if !ok then FailedJob(j, number, clock)
    else if j.cron.Once? then Succeeded(j, number, clock)
    else if j.cron.Recurring? && created then Succeeded(j, number, clock).(successor := Some(next))
    else TakenBack(Succeeded(j, number, clock), number, clock)
  }

  /** What a job's draft leaves open is set to the defaults; only a time still to come makes it SCHEDULED. */
  predicate AsDrafted(d: Draft, j: Job, now: int) {
    && (d.priority.Some? ==> j.priority == d.priority.value) && (d.priority.None? ==> j.priority == 1)
    && (d.queue.Some? ==> j.queue == d.queue.value) && (d.queue.None? ==> j.queue == "default")
    && (d.maxAttempts.Some? ==> j.maxAttempts == d.maxAttempts.value) && (d.maxAttempts.None? ==> j.maxAttempts == 5)
    && j.runAt == d.runAt && j.cron == d.cron
    && (j.status == SCHEDULED <==> d.runAt.Some? && now < d.runAt.value)
    && (j.status == PENDING <==> d.runAt.None? || d.runAt.value <= now)
    && j.attemptCount == 0 && j.nextAttemptAt.None? && j.history == []
    && j.retried == 0 && j.undone == 0 && j.redone == 0
  }

  /** The same work in the same queue with the same settings. */
  predicate SameWork(j: Job, j': Job) {
    && j'.priority == j.priority && j'.queue == j.queue && j'.cron == j.cron && j'.maxAttempts == j.maxAttempts
  }

  /**
   How a row tells of an attempt at it at time `now`: of its success, or of its failure, which waits for the
   next attempt or, when it was the last one, is final. A success whose successor cannot be created tells
   of both under one number; a cancelled job is left as it is.
   */
  predicate Tells(j: Job, j': Job, ok: bool, created: bool, now: int) {
    var n := j.attemptCount + 1;
    var well := ok && (j.cron.Once? || (j.cron.Recurring? && created));
    && (j.status == CANCELLED ==> j' == j)
    && (j.status != CANCELLED ==>
          && SameWork(j, j') && j'.runAt == j.runAt && j'.retried == j.retried && j'.attemptCount == n
          && (j'.status == SUCCESS <==> well)
          && (j'.status == RETRYING <==> !well && n < j.maxAttempts)
          && (j'.status == DEAD_LETTER <==> !well && j.maxAttempts <= n)
          && (j'.status == SUCCESS ==> j'.nextAttemptAt == j.nextAttemptAt)
          && (j'.status == RETRYING ==> j'.nextAttemptAt == Some(now + Backoff.BackoffMs(n)))
          && (j'.status == DEAD_LETTER ==> j'.nextAttemptAt.None?)
          && j'.history == j.history + (if ok then [Entry(n, SUCCESS, now)] else [])
                           + (if well then [] else [Entry(n, j'.status, now)]))
  }

  lemma AttemptedTells(j: Job, ok: bool, created: bool, now: int, next: nat)
    ensures Tells(j, Attempted(j, ok, created, now, next), ok, created, now)
  {
    hide Backoff.BackoffMs;
    var n := j.attemptCount + 1;
    assert (j.history + [Entry(n, SUCCESS, now)]) + [] == j.history + [Entry(n, SUCCESS, now)];
    assert j.history + [] == j.history;
  }

  /** The successor is the same work, due at the schedule's next run after `now`. */
  predicate Follows(j: Job, next: Job, now: int)
    requires CanContinue(j)
  {
    && SameWork(j, next) && next.status == SCHEDULED && next.runAt == Some(NextRun(j.cron.spec, now))
    && next.attemptCount == 0 && next.nextAttemptAt.None? && next.history == []
    && next.retried == 0 && next.undone == 0 && next.redone == 0
  }

  lemma CreatedFollow(j: Job, id: nat, ok: bool, created: bool, now: int)
    requires j.cron.Recurring? ==> CanContinue(j)
    ensures var made := Created(j, id, ok, created, now);
            && |made| <= 1
            && (|made| == 1 <==> j.status != CANCELLED && ok && j.cron.Recurring? && created)
            && (|made| == 1 ==> Follows(j, made[0], now))
  {
    hide NextRun;
  }

  /** The jobs an attempt creates: the successor of a recurring job that succeeded. */
  function Created(j: Job, id: nat, ok: bool, created: bool, clock: int): seq<Job>
    requires j.cron.Recurring? ==> CanContinue(j)
  {
    if j.status != CANCELLED && ok && j.cron.Recurring? && created then [Successor(j, id, clock)] else []
  }

  lemma Extend(es: seq<Event>, e: Event)
    ensures Run(Init, es + [e]) == Next(Run(Init, es), e)
  {
    assert (es + [e])[..|es|] == es;
  }

  lemma LoadRuns(es: seq<Event>)
    requires var st := Run(Init, es);
             st.worker.Sweeping? && st.worker.todo != [] && st.worker.todo[0] < |st.jobs|
    ensures var st := Run(Init, es);
            var id := st.worker.todo[0];
            Run(Init, es + [Load])
            == st.(worker := if st.jobs[id].status == CANCELLED then Sweeping(st.worker.todo[1..])
                             else Loaded(id, st.jobs[id].attemptCount + 1, st.worker.todo[1..]))
  {
    hide Batch, NewJob, Successor, FailedJob, TakenBack, Succeeded, Edited, Run;
    Extend(es, Load);
  }

  lemma MarkRuns(es: seq<Event>)
    requires Enabled(Run(Init, es), Mark)
    ensures var st := Run(Init, es);
            var w := st.worker;
            Run(Init, es + [Mark])
            == WithJob(st, w.id, st.jobs[w.id].(status := PROCESSING),
                       JobQueue.Running(w.id, w.number, w.todo))
  {
    hide Batch, NewJob, Successor, FailedJob, TakenBack, Succeeded, Edited, Run;
    Extend(es, Mark);
  }

  lemma FailRuns(es: seq<Event>)
    requires Enabled(Run(Init, es), Fail)
    ensures var st := Run(Init, es);
            var w := st.worker;
            Run(Init, es + [Fail])
            == WithJob(st, w.id, FailedJob(st.jobs[w.id], w.number, st.clock), Sweeping(w.todo))
  {
    hide Batch, NewJob, Successor, FailedJob, TakenBack, Succeeded, Edited, Run;
    Extend(es, Fail);
  }

  lemma SkippedIs(jobs: seq<Job>, id: nat, ok: bool, created: bool, clock: int)
    requires id < |jobs| && jobs[id].status == CANCELLED
    requires jobs[id].cron.Recurring? ==> CanContinue(jobs[id])
    ensures jobs == jobs[id := Attempted(jobs[id], ok, created, clock, |jobs|)]
                    + Created(jobs[id], id, ok, created, clock)
  {
    assert jobs == jobs[id := jobs[id]] + [];
  }

  /** What the statements of an attempt, one after the other, come to. */
  lemma AttemptedIs(j: Job, id: nat, ok: bool, created: bool, clock: int, next: nat)
    requires j.status != CANCELLED && (j.cron.Recurring? ==> CanContinue(j))
    ensures var number := j.attemptCount + 1;
            var p := j.(status := PROCESSING);
            var done := Succeeded(p, number, clock);
            && done.cron == j.cron && (CanContinue(done) <==> CanContinue(j))
            && Attempted(j, ok, created, clock, next)
               == (if !ok then FailedJob(p, number, clock)
                   else if j.cron.Once? then done
                   else if j.cron.Recurring? && created then done.(successor := Some(next))
                   else TakenBack(done, number, clock))
            && Created(j, id, ok, created, clock)
               == if ok && j.cron.Recurring? && created then [Successor(done, id, clock)] else []
  {
    hide NextRun;
  }

  lemma SucceedRuns(es: seq<Event>)
    requires Enabled(Run(Init, es), Succeed)
    ensures var st := Run(Init, es);
            var w := st.worker;
            Run(Init, es + [Succeed])
            == WithJob(st, w.id, Succeeded(st.jobs[w.id], w.number, st.clock),
                       if st.jobs[w.id].cron.Once? then Sweeping(w.todo)
                       else Continuing(w.id, w.number, w.todo))
  {
    hide Batch, NewJob, Successor, FailedJob, TakenBack, Succeeded, Edited, Run;
    Extend(es, Succeed);
  }

  lemma ContinueRuns(es: seq<Event>)
    requires Enabled(Run(Init, es), Continue)
    ensures var st := Run(Init, es);
            var w := st.worker;
            var j := st.jobs[w.id];
            Run(Init, es + [Continue])
            == st.(jobs := st.jobs[w.id := j.(successor := Some(|st.jobs|))] + [Successor(j, w.id, st.clock)],
                   worker := Sweeping(w.todo))
  {
    hide Batch, NewJob, Successor, FailedJob, TakenBack, Succeeded, Edited, NextRun, Run;
    Extend(es, Continue);
  }

  lemma ContinueFailsRuns(es: seq<Event>)
    requires Enabled(Run(Init, es), ContinueFails)
    ensures var st := Run(Init, es);
            var w := st.worker;
            Run(Init, es + [ContinueFails])
            == WithJob(st, w.id, TakenBack(st.jobs[w.id], w.number, st.clock), Sweeping(w.todo))
                      .(faults := st.faults + 1)
  {
    hide Batch, NewJob, Successor, FailedJob, TakenBack, Succeeded, Edited, NextRun, Run;
    Extend(es, ContinueFails);
  }

  /** Events of others than this administrator. */
  predicate ByOthers(es: seq<Event>, admin: nat) {
    forall i :: 0 <= i < |es| ==>
      match es[i]
      case ReadForCancel(a, _) => a != admin
      case ReadForRetry(a, _) => a != admin
      case WriteEdit(a) => a != admin
      case _ => true
  }

  lemma NoEvents(st: State)
    ensures Run(st, []) == st
  {
  }

  lemma OtherLeavesEdit(st: State, e: Event, admin: nat)
    requires admin in st.pending && ByOthers([e], admin)
    ensures admin in Next(st, e).pending && Next(st, e).pending[admin] == st.pending[admin]
  {
    assert [e][0] == e;
    hide Batch, NewJob, Successor, FailedJob, TakenBack, Succeeded, Edited, NextRun;
  }

  lemma {:induction false} OthersLeaveEdit(st: State, es: seq<Event>, admin: nat)
    requires admin in st.pending && ByOthers(es, admin)
    ensures admin in Run(st, es).pending && Run(st, es).pending[admin] == st.pending[admin]
  {
    if es != [] {
      var before := es[..|es| - 1];
      assert ByOthers(before, admin) && ByOthers([es[|es| - 1]], admin);
      hide ByOthers, Next;
      OthersLeaveEdit(st, before, admin);
      OtherLeavesEdit(Run(st, before), es[|es| - 1], admin);
    }
  }

  lemma {:induction false} RunAppend(st: State, es: seq<Event>, more: seq<Event>)
    ensures Run(st, es + more) == Run(Run(st, es), more)
    decreases |more|
  {
    if more == [] {
      assert es + more == es;
    } else {
      var last := |more| - 1;
      assert (es + more)[..|es + more| - 1] == es + more[..last];
      RunAppend(st, es, more[..last]);
    }
  }

  /** The rows, with where the worker is and what administrators' requests have read. */
  class JobStore {
    var jobs: seq<Job>
    var paused: set<string>
    var worker: Worker
    var clock: int
    var faults: nat
    var pending: map<nat, Edit>
    ghost var trace: seq<Event>

    function St(): State
      reads this
    {
      State(jobs, paused, worker, clock, faults, pending)
    }

    ghost predicate Mirrors(w: Worker)
      reads this
    {
      Run(Init, trace) == State(jobs, paused, w, clock, faults, pending) && worker == w
    }

    ghost predicate Valid()
      reads this
    {
      Run(Init, trace) == St()
    }

    constructor ()
      ensures Mirrors(Idle) && jobs == [] && paused == {}
    {
      jobs, paused, worker, clock, faults, pending, trace := [], {}, Idle, 0, 0, map[], [];
    }

    /** Whatever others do meanwhile. */
    method Others(es: seq<Event>)
      requires Valid()
      modifies this
      ensures Valid() && St() == Run(old(St()), es) && trace == old(trace) + es
    {
      hide Run, Next;
      RunAppend(Init, trace, es);
      var st := Run(St(), es);
      jobs, paused, worker, clock, faults, pending := st.jobs, st.paused, st.worker, st.clock, st.faults, st.pending;
      trace := trace + es;
    }

    method EnqueueJob(d: Draft) returns (id: nat)
      requires Mirrors(Idle) && d.priority.GetOr(1) <= 3
      modifies this
      ensures Mirrors(Idle) && id == |old(jobs)| && jobs == old(jobs) + [NewJob(d, clock, id)]
      ensures paused == old(paused) && clock == old(clock) && AsDrafted(d, jobs[id], clock)
    {
      assert AsDrafted(d, NewJob(d, clock, |jobs|), clock);
      hide Run, Batch, NextRun, Successor, TakenBack, FailedJob, Succeeded, NewJob, Edited, AsDrafted;
      Extend(trace, Enqueue(d));
      trace := trace + [Enqueue(d)];
      id := |jobs|;
      jobs := jobs + [NewJob(d, clock, id)];
    }

    /** The second statement of a cancellation or a retry, which asks nothing of the job any more. */
    method Write(admin: nat)
      requires Valid() && admin in pending
      modifies this
      ensures Valid() && St() == Next(old(St()), WriteEdit(admin))
      ensures old(pending)[admin].id < |old(jobs)|
      ensures var e := old(pending)[admin];
              jobs == old(jobs)[e.id := Edited(old(jobs)[e.id], e, clock)] && clock == old(clock)
    {
      RunKeepsInv(trace);
      assert PendingOk(St());
      hide Run, Batch, NextRun, Successor, TakenBack, FailedJob, Succeeded, NewJob, Edited, Inv;
      Extend(trace, WriteEdit(admin));
      trace := trace + [WriteEdit(admin)];
      var e := pending[admin];
      jobs, pending := jobs[e.id := Edited(jobs[e.id], e, clock)], pending - {admin};
    }

    /**
     `cancel`: the job is checked as it is read, and written after whatever others did in between. It is
     then CANCELLED whatever it had become, and nothing else is changed by the write.
     */
    method CancelJob(admin: nat, id: nat, between: seq<Event>) returns (r: AdminResult)
      requires Valid() && admin !in pending && ByOthers(between, admin)
      modifies this
      ensures Valid()
      ensures r == if id >= |old(jobs)| then NotFound
                   else if old(jobs)[id].status in {PENDING, SCHEDULED, RETRYING} then Updated else BadRequest
      ensures !r.Updated? ==> St() == old(St())
      ensures r.Updated? ==>
        && St() == Next(Run(Next(old(St()), ReadForCancel(admin, id)), between), WriteEdit(admin))
        && id < |jobs| && jobs[id].status == CANCELLED
      ensures r.Updated? && between == [] ==> jobs == old(jobs)[id := old(jobs)[id].(status := CANCELLED)]
    {
      hide Run, Batch, NextRun, Successor, TakenBack, FailedJob, Succeeded, NewJob, ByOthers;
      if id >= |jobs| { return NotFound; }
      if !Waiting(jobs[id].status) { return BadRequest; }
      Extend(trace, ReadForCancel(admin, id));
      trace, pending := trace + [ReadForCancel(admin, id)], pending[admin := CancelOf(id)];
      assert St() == Next(old(St()), ReadForCancel(admin, id));
      OthersLeaveEdit(St(), between, admin);
      NoEvents(St());
      hide Next;
      Others(between);
      Write(admin);
      r := Updated;
    }

    /** `retry`, likewise: the job ends up PENDING and due at once, whatever it had become. */
    method RetryJob(admin: nat, id: nat, between: seq<Event>) returns (r: AdminResult)
      requires Valid() && admin !in pending && ByOthers(between, admin)
      modifies this
      ensures Valid()
      ensures r == if id >= |old(jobs)| then NotFound
                   else if old(jobs)[id].status in {FAILED, DEAD_LETTER} then Updated else BadRequest
      ensures !r.Updated? ==> St() == old(St())
      ensures r.Updated? ==>
        && St() == Next(Run(Next(old(St()), ReadForRetry(admin, id)), between), WriteEdit(admin))
        && id < |jobs| && jobs[id].status == PENDING && jobs[id].nextAttemptAt == Some(clock)
      ensures r.Updated? && between == [] ==>
        jobs == old(jobs)[id := old(jobs)[id].(status := PENDING, nextAttemptAt := Some(clock),
                                               retried := old(jobs)[id].retried + 1)]
    {
      hide Run, Batch, NextRun, Successor, TakenBack, FailedJob, Succeeded, NewJob, ByOthers;
      if id >= |jobs| { return NotFound; }
      if jobs[id].status !in {FAILED, DEAD_LETTER} { return BadRequest; }
      Extend(trace, ReadForRetry(admin, id));
      trace, pending := trace + [ReadForRetry(admin, id)], pending[admin := RetryOf(id)];
      assert St() == Next(old(St()), ReadForRetry(admin, id));
      OthersLeaveEdit(St(), between, admin);
      NoEvents(St());
      hide Next;
      Others(between);
      Write(admin);
      r := Updated;
    }

    /** A paused queue gives a sweep nothing; a queue that is resumed gives what it would have given. */
    method SetPaused(queue: string, pause: bool)
      requires Valid()
      modifies this`paused, this`trace
      ensures Valid() && (forall q :: q != queue ==> (q in paused <==> q in old(paused)))
      ensures forall i: nat :: i < |jobs| && jobs[i].queue == queue ==>
                (pause ==> !DueNow(jobs, paused, clock, i) && !ReadyToRun(jobs[i], paused, clock))
                && (!pause ==> (DueNow(jobs, paused, clock, i) <==> DueNow(jobs, {}, clock, i)))
                && (!pause ==> (ReadyToRun(jobs[i], paused, clock) <==> ReadyToRun(jobs[i], {}, clock)))
      ensures queue in paused <==> pause
    {
      hide Run, Batch, NextRun, Successor, TakenBack, FailedJob, Succeeded, NewJob, Edited;
      Extend(trace, if pause then Pause(queue) else Resume(queue));
      trace := trace + [if pause then Pause(queue) else Resume(queue)];
      paused := if pause then paused + {queue} else paused - {queue};
    }

    /** The job's row is read; a cancelled one is left alone. */
    method LoadJob(id: nat, ghost todo: seq<nat>) returns (ok: bool)
      requires Mirrors(Sweeping([id] + todo)) && id < |jobs|
      modifies this`worker, this`trace
      ensures ok == (jobs[id].status != CANCELLED)
      ensures Mirrors(worker)
      ensures worker == if ok then Loaded(id, jobs[id].attemptCount + 1, todo) else Sweeping(todo)
    {
      hide Run, Next;
      assert ([id] + todo)[1..] == todo;
      LoadRuns(trace);
      trace := trace + [Load];
      ok := jobs[id].status != CANCELLED;
      var rest := worker.todo[1..];
      worker := if ok then Loaded(id, jobs[id].attemptCount + 1, rest) else Sweeping(rest);
    }

    method MarkProcessing(id: nat)
      requires worker.Loaded? && worker.id == id && Mirrors(worker) && id < |jobs|
      modifies this`jobs, this`worker, this`trace
      ensures Mirrors(worker) && worker == JobQueue.Running(id, old(worker).number, old(worker).todo)
      ensures paused == old(paused) && clock == old(clock)
      ensures jobs == old(jobs)[id := old(jobs)[id].(status := PROCESSING)]
    {
      hide Run, Next;
      MarkRuns(trace);
      trace := trace + [Mark];
      jobs := jobs[id := jobs[id].(status := PROCESSING)];
      worker := JobQueue.Running(id, worker.number, worker.todo);
    }

    /** The success and its history entry. */
    method RecordSuccess(id: nat)
      requires worker.Running? && worker.id == id && Mirrors(worker) && id < |jobs|
      modifies this`jobs, this`worker, this`trace
      ensures Mirrors(worker)
      ensures worker == if old(jobs)[id].cron.Once? then Sweeping(old(worker).todo)
                        else Continuing(id, old(worker).number, old(worker).todo)
      ensures jobs == old(jobs)[id := Succeeded(old(jobs)[id], old(worker).number, clock)]
    {
      hide Run, Next;
      SucceedRuns(trace);
      trace := trace + [Succeed];
      var once := jobs[id].cron.Once?;
      jobs := jobs[id := Succeeded(jobs[id], worker.number, clock)];
      worker := if once then Sweeping(worker.todo) else Continuing(id, worker.number, worker.todo);
    }

    method RecordFailure(id: nat)
      requires worker.Running? && worker.id == id && Mirrors(worker) && id < |jobs|
      modifies this`jobs, this`worker, this`trace
      ensures Mirrors(Sweeping(old(worker).todo))
      ensures jobs == old(jobs)[id := FailedJob(old(jobs)[id], old(worker).number, clock)]
    {
      hide Run, Next;
      FailRuns(trace);
      trace := trace + [Fail];
      jobs := jobs[id := FailedJob(jobs[id], worker.number, clock)];
      worker := Sweeping(worker.todo);
    }

    /** The next job of the chain, or the failure to create it. */
    method Follow(id: nat, created: bool)
      requires worker.Continuing? && worker.id == id && Mirrors(worker) && id < |jobs|
      requires jobs[id].cron.Recurring? ==> CanContinue(jobs[id])
      modifies this
      ensures Mirrors(Sweeping(old(worker).todo)) && paused == old(paused) && clock == old(clock)
      ensures var j := old(jobs)[id];
              jobs == if j.cron.Recurring? && created
                      then old(jobs)[id := j.(successor := Some(|old(jobs)|))] + [Successor(j, id, clock)]
                      else old(jobs)[id := TakenBack(j, old(worker).number, clock)]
    {
      hide Run, Next, NextRun, Successor;
      if jobs[id].cron.Recurring? && created {
        ContinueRuns(trace);
        trace := trace + [Continue];
        var next := Successor(jobs[id], id, clock);
        jobs := jobs[id := jobs[id].(successor := Some(|jobs|))] + [next];
      } else {
        ContinueFailsRuns(trace);
        trace, faults := trace + [ContinueFails], faults + 1;
        jobs := jobs[id := TakenBack(jobs[id], worker.number, clock)];
      }
      worker := Sweeping(worker.todo);
    }

    method EndSweep()
      requires Mirrors(Sweeping([]))
      modifies this`worker, this`trace
      ensures Mirrors(Idle)
    {
      LoadNothing(trace);
      trace, worker := trace + [Load], Idle;
    }

    /** The query of the due jobs. */
    method BeginSweep() returns (due: seq<nat>)
      requires Mirrors(Idle)
      modifies this`worker, this`trace
      ensures Mirrors(Sweeping(due)) && due == Batch(jobs, paused, clock)
      ensures forall x :: 0 <= x < |due| ==> due[x] < |jobs|
      ensures forall x, y :: 0 <= x < y < |due| ==> due[x] != due[y]
    {
      BatchNamesOnce(trace);
      EnabledQuery(Run(Init, trace));
      Extend(trace, Query);
      hide Batch, Run;
      trace, due := trace + [Query], Batch(jobs, paused, clock);
      worker := Sweeping(due);
    }

    /** One attempt: `ok` is how the processor ends and `created` whether the next job can be stored. */
    method Attempt(id: nat, ok: bool, created: bool, ghost todo: seq<nat>)
      requires Mirrors(Sweeping([id] + todo)) && id < |jobs|
      requires jobs[id].cron.Recurring? && jobs[id].cron.spec.Weekly? ==> jobs[id].cron.spec.day <= 6
      modifies this
      ensures Mirrors(Sweeping(todo)) && paused == old(paused) && clock == old(clock)
      ensures jobs == old(jobs)[id := Attempted(old(jobs)[id], ok, created, clock, |old(jobs)|)]
                      + Created(old(jobs)[id], id, ok, created, clock)
      ensures |old(jobs)| <= |jobs| && Tells(old(jobs)[id], jobs[id], ok, created, clock)
      ensures forall i :: 0 <= i < |old(jobs)| && i != id ==> jobs[i] == old(jobs)[i]
      ensures var j := old(jobs)[id];
              |jobs| == |old(jobs)| + if j.status != CANCELLED && ok && j.cron.Recurring? && created then 1 else 0
      ensures |jobs| > |old(jobs)| ==> Follows(old(jobs)[id], jobs[|old(jobs)|], clock)
    {
      ghost var was := jobs;
      AttemptedTells(jobs[id], ok, created, clock, |jobs|);
      CreatedFollow(jobs[id], id, ok, created, clock);
      var loaded := LoadJob(id, todo);
      hide Mirrors, Attempted, Created, Tells, Follows, CanContinue;
      if loaded {
        RunJob(id, ok, created);
      } else {
        SkippedIs(was, id, ok, created, clock);
      }
    }

    /** The attempt of a job that has been loaded. */
    method RunJob(id: nat, ok: bool, created: bool)
      requires worker.Loaded? && Mirrors(worker) && worker.id == id && id < |jobs|
      requires jobs[id].status != CANCELLED && worker.number == jobs[id].attemptCount + 1
      requires jobs[id].cron.Recurring? ==> CanContinue(jobs[id])
      modifies this
      ensures Mirrors(Sweeping(old(worker).todo)) && paused == old(paused) && clock == old(clock)
      ensures jobs == old(jobs)[id := Attempted(old(jobs)[id], ok, created, clock, |old(jobs)|)]
                      + Created(old(jobs)[id], id, ok, created, clock)
    {
      ghost var was := jobs;
      AttemptedIs(jobs[id], id, ok, created, clock, |jobs|);
      hide *;
      ghost var (number, p) := (worker.number, jobs[id].(status := PROCESSING));
      MarkProcessing(id);
      if ok {
        SucceedAndFollow(id, created, was);
      } else {
        RecordFailure(id);
        WrittenTwice(was, id, p, FailedJob(p, number, clock));
      }
    }

    /** The end of an attempt that ran well: the success, then what follows it. */
    method SucceedAndFollow(id: nat, created: bool, ghost was: seq<Job>)
      requires worker.Running? && Mirrors(worker) && worker.id == id && id < |jobs| == |was|
      requires jobs == was[id := jobs[id]]
      requires jobs[id].cron.Recurring? ==> CanContinue(Succeeded(jobs[id], worker.number, clock))
      requires Succeeded(jobs[id], worker.number, clock).cron == jobs[id].cron
      modifies this
      ensures Mirrors(Sweeping(old(worker).todo)) && paused == old(paused) && clock == old(clock)
      ensures var (j, done) := (old(jobs)[id], Succeeded(old(jobs)[id], old(worker).number, clock));
              jobs == if j.cron.Once? then was[id := done]
                      else if j.cron.Recurring? && created
                      then was[id := done.(successor := Some(|was|))] + [Successor(done, id, clock)]
                      else was[id := TakenBack(done, old(worker).number, clock)]
    {
      hide Mirrors, Succeeded, TakenBack, Successor, CanContinue;
      var once := jobs[id].cron.Once?;
      RecordSuccess(id);
      if !once {
        Follow(id, created);
      }
    }

    /**
     One sweep: every job of the batch is attempted once, in batch order, unless it is cancelled, and
     no other job changes; successors come behind all the jobs there were.
     */
    method ProcessDue(oks: nat -> bool, created: nat -> bool)
      requires Mirrors(Idle)
      requires AllContinue(jobs)
      modifies this
      ensures Mirrors(Idle) && paused == old(paused) && clock == old(clock)
      ensures Swept(old(jobs), jobs, Batch(old(jobs), old(paused), old(clock)), oks, created, clock)
      ensures forall i: nat :: i < |old(jobs)| <= |jobs| && jobs[i] != old(jobs)[i] ==>
                ReadyToRun(old(jobs)[i], old(paused), clock) && Tells(old(jobs)[i], jobs[i], oks(i), created(i), clock)
    {
      PrioritiesHold(trace);
      assert PrioritiesRange(jobs);
      var due := BeginSweep();
      ghost var was := jobs;
      NothingSwept(was, oks, created, clock);
      hide Mirrors, Batch, Attempted, Created, CanContinue, Swept, AllContinue, PrioritiesRange, Tells, ReadyToRun;
      var i := 0;
      while i < |due|
        invariant 0 <= i <= |due|
        invariant Mirrors(Sweeping(due[i..])) && paused == old(paused) && clock == old(clock)
        invariant Swept(was, jobs, due[..i], oks, created, clock)
      {
        var id := due[i];
        SweptSoFar(was, jobs, due, i, oks, created, clock);
        ghost var before := jobs;
        Attempt(id, oks(id), created(id), due[i + 1..]);
        SweptOneMore(was, before, jobs, due[..i], id, oks, created, clock);
        i := i + 1;
      }
      assert due[..i] == due;
      SweptOnlyReady(was, jobs, paused, clock, oks, created);
      EndSweep();
    }
  }

  /** The job waits, in a queue that is not paused, and neither of its times is still to come. */
  predicate ReadyToRun(j: Job, paused: set<string>, now: int) {
    && j.status in {PENDING, SCHEDULED, RETRYING} && j.queue !in paused
    && (j.runAt.Some? ==> j.runAt.value <= now)
    && (j.nextAttemptAt.Some? ==> j.nextAttemptAt.value <= now)
  }

  /** Whatever a sweep changes was ready to run, and tells of one attempt. */
  lemma SweptOnlyReady(was: seq<Job>, jobs: seq<Job>, paused: set<string>, clock: int, oks: nat -> bool,
                       created: nat -> bool)
    requires PrioritiesRange(was)
    requires Swept(was, jobs, Batch(was, paused, clock), oks, created, clock)
    ensures forall i: nat :: i < |was| <= |jobs| && jobs[i] != was[i] ==>
              ReadyToRun(was[i], paused, clock) && Tells(was[i], jobs[i], oks(i), created(i), clock)
  {
    hide Batch, Attempted, Tells;
    forall i: nat | i < |was| <= |jobs| && jobs[i] != was[i]
      ensures ReadyToRun(was[i], paused, clock) && Tells(was[i], jobs[i], oks(i), created(i), clock)
    {
      var x :| 0 <= x < |Batch(was, paused, clock)| && Batch(was, paused, clock)[x] == i;
      BatchIsDue(was, paused, clock, x);
      var next: nat :| jobs[i] == Attempted(was[i], oks(i), created(i), clock, next);
      AttemptedTells(was[i], oks(i), created(i), clock, next);
    }
  }

  lemma WrittenTwice(jobs: seq<Job>, id: nat, j: Job, j': Job)
    requires id < |jobs|
    ensures jobs[id := j][id := j'] == jobs[id := j'] + []
  {
  }

  /** Job `j` is what one attempt makes of `j0`, up to the number of the successor it created. */
  ghost predicate AttemptedOnce(j0: Job, j: Job, ok: bool, created: bool, clock: int) {
    exists next: nat :: j == Attempted(j0, ok, created, clock, next)
  }

  predicate AllContinue(jobs: seq<Job>) {
    forall i :: 0 <= i < |jobs| && jobs[i].cron.Recurring? ==> CanContinue(jobs[i])
  }

  lemma SweptSoFar(was: seq<Job>, jobs: seq<Job>, due: seq<nat>, i: nat, oks: nat -> bool, created: nat -> bool,
                   clock: int)
    requires AllContinue(was) && i < |due| && Swept(was, jobs, due[..i], oks, created, clock)
    requires due[i] < |was| && forall x, y :: 0 <= x < y < |due| ==> due[x] != due[y]
    ensures due[i] !in due[..i] && due[i] < |jobs| && jobs[due[i]] == was[due[i]]
    ensures was[due[i]].cron.Recurring? ==> CanContinue(was[due[i]])
    ensures due[..i + 1] == due[..i] + [due[i]] && due[i..] == [due[i]] + due[i + 1..]
  {
  }

  lemma NothingSwept(was: seq<Job>, oks: nat -> bool, created: nat -> bool, clock: int)
    ensures Swept(was, was, [], oks, created, clock)
  {
  }

  ghost predicate Swept(was: seq<Job>, jobs: seq<Job>, done: seq<nat>, oks: nat -> bool,
                        created: nat -> bool, clock: int) {
    && |was| <= |jobs|
    && forall i: nat :: i < |was| ==>
         if i in done then AttemptedOnce(was[i], jobs[i], oks(i), created(i), clock)
         else jobs[i] == was[i]
  }

  lemma SweptOneMore(was: seq<Job>, jobs: seq<Job>, jobs': seq<Job>, done: seq<nat>, id: nat,
                     oks: nat -> bool, created: nat -> bool, clock: int)
    requires Swept(was, jobs, done, oks, created, clock) && id < |was| && id !in done
    requires was[id].cron.Recurring? ==> CanContinue(was[id])
    requires jobs' == jobs[id := Attempted(was[id], oks(id), created(id), clock, |jobs|)]
                      + Created(was[id], id, oks(id), created(id), clock)
    ensures Swept(was, jobs', done + [id], oks, created, clock)
  {
    hide Attempted, Created;
    forall i: nat | i < |was|
      ensures if i in done + [id] then AttemptedOnce(was[i], jobs'[i], oks(i), created(i), clock)
              else jobs'[i] == was[i]
    {
      assert i != id ==> jobs'[i] == jobs[i];
    }
  }

  /** Priorities run from LOW to CRITICAL. */
  predicate PrioritiesRange(jobs: seq<Job>) {
    forall i :: 0 <= i < |jobs| ==> jobs[i].priority <= 3
  }

  lemma PrioritiesHold(es: seq<Event>)
    ensures PrioritiesRange(Run(Init, es).jobs)
  {
    RunKeepsInv(es);
    var st := Run(Init, es);
    assert forall i :: 0 <= i < |st.jobs| ==> JobOk(st.jobs[i]);
  }

  lemma BatchNamesOnce(es: seq<Event>)
    ensures var st := Run(Init, es);
            var b := Batch(st.jobs, st.paused, st.clock);
            && (forall x :: 0 <= x < |b| ==> b[x] < |st.jobs|)
            && (forall x, y :: 0 <= x < y < |b| ==> b[x] != b[y])
  {
    RunKeepsInv(es);
    var st := Run(Init, es);
    assert forall i :: 0 <= i < |st.jobs| ==> JobOk(st.jobs[i]);
    BatchHolds(st.jobs, st.paused, st.clock);
    hide Batch;
    var b := Batch(st.jobs, st.paused, st.clock);
    forall x | 0 <= x < |b| ensures b[x] < |st.jobs| {
      assert DueNow(st.jobs, st.paused, st.clock, b[x]);
    }
    forall x, y | 0 <= x < y < |b| ensures b[x] != b[y] {
      assert Before(st.jobs, b[x], b[y]);
    }
  }

  lemma LoadNothing(es: seq<Event>)
    requires Run(Init, es).worker == Sweeping([])
    ensures Run(Init, es + [Load]) == Run(Init, es).(worker := Idle)
  {
    hide Batch, NewJob, Successor, FailedJob, TakenBack, Succeeded, Edited, Run;
    Extend(es, Load);
  }
}
