/** Recurring chains: how many of their jobs are unfinished, and that they move forward in time. */
module JobChains {
  import opened Common
  import opened Schedule
  import opened JobQueue
  import opened JobAccounting

  // ---- chains ----

  /** Every recurring job enqueued has a recognized schedule in the documented ranges. */
  predicate GoodSchedule(c: Cron) {
    c.Once? || (c.Recurring? && InRange(c.spec))
  }

  predicate GoodEvent(e: Event) {
    e.Enqueue? ==> GoodSchedule(e.draft.cron)
  }

  predicate GoodRun(es: seq<Event>) {
    forall i :: 0 <= i < |es| ==> GoodEvent(es[i])
  }

  // ---- what chains are made of ----

  /** The jobs of a chain share its first job's schedule, and follow an older one of them. */
  ghost predicate PlaceOk(jobs: seq<Job>, i: nat) {
    i < |jobs| ==>
      var j := jobs[i];
      && j.chain <= i && jobs[j.chain].chain == j.chain && jobs[j.chain].cron == j.cron
      && (j.origin.Some? ==> j.origin.value < i && jobs[j.origin.value].chain == j.chain)
  }

  ghost predicate PlacesOk(jobs: seq<Job>) {
    forall i: nat :: PlaceOk(jobs, i)
  }

  /** Jobs are added, and those there were keep their place. */
  ghost predicate SamePlaces(jobs: seq<Job>, jobs': seq<Job>) {
    && |jobs| <= |jobs'|
    && forall i: nat :: i < |jobs| ==> SamePlace(jobs[i], jobs'[i])
  }

  predicate SamePlace(j: Job, j': Job) {
    j'.chain == j.chain && j'.cron == j.cron && j'.runAt == j.runAt && j'.origin == j.origin
  }

  lemma StepKeepsPlace(st: State, e: Event)
    requires Enabled(st, e)
    ensures SamePlaces(st.jobs, Do(st, e).jobs)
    ensures !e.Enqueue? && !e.Continue? ==> |Do(st, e).jobs| == |st.jobs|
  {
    hide Batch, NextRun;
  }

  /** The job that a step adds begins a chain of its own, or follows the worker's job in that one's. */
  lemma AddedJob(st: State, e: Event)
    requires Enabled(st, e) && (e.Enqueue? || e.Continue?)
    ensures var (jobs', n) := (Do(st, e).jobs, |st.jobs|);
            && |jobs'| == n + 1
            && (e.Enqueue? ==> jobs'[n].chain == n && jobs'[n].origin.None? && jobs'[n].cron == e.draft.cron)
            && (e.Continue? ==>
                  var j := st.jobs[st.worker.id];
                  && CanContinue(j)
                  && jobs'[n].chain == j.chain && jobs'[n].origin == Some(st.worker.id) && jobs'[n].cron == j.cron
                  && jobs'[n].runAt == Some(NextRun(j.cron.spec, st.clock)))
  {
    hide Batch, NextRun;
  }

  lemma NextKeepsPlaces(st: State, e: Event)
    requires Inv(st) && PlacesOk(st.jobs)
    ensures PlacesOk(Next(st, e).jobs)
  {
    if Enabled(st, e) {
      StepKeepsPlace(st, e);
      var jobs' := Do(st, e).jobs;
      if e.Enqueue? || e.Continue? {
        AddedJob(st, e);
      }
      if e.Continue? {
        assert PlaceOk(st.jobs, st.worker.id);
      }
      hide Do, Inv, NextRun;
      forall i: nat ensures PlaceOk(jobs', i) {
        assert PlaceOk(st.jobs, i);
      }
    }
  }

  lemma {:induction false} RunKeepsPlaces(es: seq<Event>)
    ensures PlacesOk(Run(Init, es).jobs)
  {
    if es != [] {
      hide Next, PlacesOk, Inv;
      RunKeepsInv(es[..|es| - 1]);
      RunKeepsPlaces(es[..|es| - 1]);
      NextKeepsPlaces(Run(Init, es[..|es| - 1]), es[|es| - 1]);
    } else {
      assert Run(Init, es).jobs == [];
    }
  }

  // ---- the balance of a chain ----

  /** One for an unfinished job of chain `c`, less the writes that took its success away for good. */
  function Weight(j: Job, c: nat): int {
    if j.chain != c then 0 else (if j.status == SUCCESS then 0 else 1) - j.undone + j.redone
  }

  function Balance(jobs: seq<Job>, c: nat): int {
    if jobs == [] then 0 else Balance(jobs[..|jobs| - 1], c) + Weight(jobs[|jobs| - 1], c)
  }

  lemma {:induction false} BalanceWith(jobs: seq<Job>, i: nat, j: Job, c: nat)
    requires i < |jobs|
    ensures Balance(jobs[i := j], c) == Balance(jobs, c) - Weight(jobs[i], c) + Weight(j, c)
  {
    var n := |jobs| - 1;
    if i == n {
      assert jobs[i := j][..n] == jobs[..n];
    } else {
      assert jobs[i := j][..n] == jobs[..n][i := j];
      BalanceWith(jobs[..n], i, j, c);
    }
  }

  lemma BalanceAppend(jobs: seq<Job>, j: Job, c: nat)
    ensures Balance(jobs + [j], c) == Balance(jobs, c) + Weight(j, c)
  {
    assert (jobs + [j])[..|jobs|] == jobs;
  }

  lemma {:induction false} BalanceOfNone(jobs: seq<Job>, c: nat)
    requires forall i :: 0 <= i < |jobs| ==> jobs[i].chain != c
    ensures Balance(jobs, c) == 0
  {
    if jobs != [] { BalanceOfNone(jobs[..|jobs| - 1], c); }
  }

  /** The worker has recorded a success of this chain and not yet dealt with the next job. */
  predicate InHandover(st: State, chain: nat) {
    st.worker.Continuing? && st.worker.id < |st.jobs| && st.jobs[st.worker.id].chain == chain
  }

  function Handover(st: State, c: nat): int {
    if InHandover(st, c) then 1 else 0
  }

  predicate Repeating(jobs: seq<Job>, c: nat) {
    c < |jobs| && jobs[c].chain == c && jobs[c].cron != Once
  }

  ghost predicate Balanced(st: State) {
    forall c: nat :: Repeating(st.jobs, c) ==> Balance(st.jobs, c) + Handover(st, c) == 1
  }

  /** The job a step writes, if it writes one. */
  function Written(st: State, e: Event): Option<nat>
    requires Enabled(st, e)
  {
    match e
    case WriteEdit(a) => Some(st.pending[a].id)
    case Mark => Some(st.worker.id)
    case Succeed => Some(st.worker.id)
    case Fail => Some(st.worker.id)
    case Continue => Some(st.worker.id)
    case ContinueFails => Some(st.worker.id)
    case _ => None
  }

  lemma StepWritesOne(st: State, e: Event)
    requires Enabled(st, e) && !e.Enqueue? && !e.Continue?
    ensures var w := Written(st, e);
            if w.None? then Do(st, e).jobs == st.jobs
            else w.value < |st.jobs| && w.value < |Do(st, e).jobs|
                 && Do(st, e).jobs == st.jobs[w.value := Do(st, e).jobs[w.value]]
  {
    hide Batch, NextRun;
  }

  /** What the write adds to the balance, the end of the worker's handover takes, and the other way round. */
  lemma WriteKeepsBalance(st: State, e: Event, c: nat)
    requires Inv(st) && PlacesOk(st.jobs) && Enabled(st, e) && !e.Enqueue? && !e.Continue?
    requires Repeating(st.jobs, c)
    ensures var w := Written(st, e);
            (if w.None? || w.value >= |st.jobs| || w.value >= |Do(st, e).jobs| then 0
             else Weight(Do(st, e).jobs[w.value], c) - Weight(st.jobs[w.value], c))
            + Handover(Do(st, e), c) == Handover(st, c)
  {
    hide Batch, NextRun, JobOk, TodoOk;
    if Written(st, e).Some? {
      assert PlaceOk(st.jobs, Written(st, e).value);
    }
  }

  lemma StepKeepsBalance(st: State, e: Event, c: nat)
    requires Inv(st) && PlacesOk(st.jobs) && Balanced(st) && Enabled(st, e) && !e.Enqueue? && !e.Continue?
    requires Repeating(Do(st, e).jobs, c)
    ensures Balance(Do(st, e).jobs, c) + Handover(Do(st, e), c) == 1
  {
    StepKeepsPlace(st, e);
    StepWritesOne(st, e);
    assert Repeating(st.jobs, c);
    WriteKeepsBalance(st, e, c);
    hide Do, Inv, PlacesOk, Weight, Handover, Enabled;
    var w := Written(st, e);
    if w.Some? {
      BalanceWith(st.jobs, w.value, Do(st, e).jobs[w.value], c);
    }
  }

  lemma EnqueueKeepsBalance(st: State, e: Event, c: nat)
    requires Inv(st) && PlacesOk(st.jobs) && Balanced(st) && Enabled(st, e) && e.Enqueue?
    requires Repeating(Do(st, e).jobs, c)
    ensures Balance(Do(st, e).jobs, c) + Handover(Do(st, e), c) == 1
  {
    var j := NewJob(e.draft, st.clock, |st.jobs|);
    BalanceAppend(st.jobs, j, c);
    hide Batch, NextRun, JobOk, TodoOk, Balance;
    if c == |st.jobs| {
      forall i: nat | i < |st.jobs| ensures st.jobs[i].chain != c {
        assert PlaceOk(st.jobs, i);
      }
      BalanceOfNone(st.jobs, c);
    } else {
      assert Repeating(st.jobs, c);
    }
  }

  lemma ContinueKeepsBalance(st: State, c: nat)
    requires Inv(st) && PlacesOk(st.jobs) && Balanced(st) && Enabled(st, Continue)
    requires Repeating(Do(st, Continue).jobs, c)
    ensures Balance(Do(st, Continue).jobs, c) + Handover(Do(st, Continue), c) == 1
  {
    hide NextRun, JobOk, TodoOk, Balance;
    var id := st.worker.id;
    var (j, next) := (st.jobs[id].(successor := Some(|st.jobs|)), Successor(st.jobs[id], id, st.clock));
    assert PlaceOk(st.jobs, id);
    assert c < |st.jobs| && Repeating(st.jobs, c);
    BalanceWith(st.jobs, id, j, c);
    BalanceAppend(st.jobs[id := j], next, c);
    hide Successor;
  }

  lemma NextKeepsBalanced(st: State, e: Event)
    requires Inv(st) && PlacesOk(st.jobs) && Balanced(st)
    ensures Balanced(Next(st, e))
  {
    hide Inv, PlacesOk, Do, Balance, Repeating, Handover, Enabled;
    if Enabled(st, e) {
      forall c: nat | Repeating(Do(st, e).jobs, c)
        ensures Balance(Do(st, e).jobs, c) + Handover(Do(st, e), c) == 1
      {
        if e.Enqueue? { EnqueueKeepsBalance(st, e, c); }
        else if e.Continue? { ContinueKeepsBalance(st, c); }
        else { StepKeepsBalance(st, e, c); }
      }
    }
  }

  lemma {:induction false} RunKeepsBalanced(es: seq<Event>)
    ensures Balanced(Run(Init, es))
  {
    if es != [] {
      hide Next, PlacesOk, Inv, Balanced;
      RunKeepsInv(es[..|es| - 1]);
      RunKeepsPlaces(es[..|es| - 1]);
      RunKeepsBalanced(es[..|es| - 1]);
      NextKeepsBalanced(Run(Init, es[..|es| - 1]), es[|es| - 1]);
    }
  }

  // ---- one unfinished job ----

  /** The unfinished jobs of chain `c` among the first `n`. */
  function UnfinishedBelow(jobs: seq<Job>, c: nat, n: nat): set<nat> {
    set i: nat | i < n && i < |jobs| && jobs[i].chain == c && jobs[i].status != SUCCESS
  }

  function Unfinished(jobs: seq<Job>, c: nat): set<nat> {
    UnfinishedBelow(jobs, c, |jobs|)
  }

  /** How many successes of chain `c` an administrator's write took away for good. */
  function Undone(jobs: seq<Job>, c: nat): int {
    if jobs == [] then 0
    else
      var j := jobs[|jobs| - 1];
      Undone(jobs[..|jobs| - 1], c) + if j.chain == c then j.undone - j.redone else 0
  }

  lemma {:induction false} BalanceCounts(jobs: seq<Job>, c: nat)
    ensures Balance(jobs, c) == |Unfinished(jobs, c)| - Undone(jobs, c)
  {
    if jobs != [] {
      var before := jobs[..|jobs| - 1];
      BalanceCounts(before, c);
      var last := |before|;
      if jobs[last].chain == c && jobs[last].status != SUCCESS {
        assert Unfinished(jobs, c) == Unfinished(before, c) + {last};
      } else {
        assert Unfinished(jobs, c) == Unfinished(before, c);
      }
    }
  }

  /**
   Conservation: after any run, a chain has one unfinished job for itself and one for each success that
   an administrator's late write took away, less one while the worker has recorded a success and not yet
   created the next job.
   */
  lemma UnfinishedJobsOfChain(es: seq<Event>, c: nat)
    requires Repeating(Run(Init, es).jobs, c)
    ensures var st := Run(Init, es);
            |Unfinished(st.jobs, c)| == 1 + Undone(st.jobs, c) - Handover(st, c)
  {
    RunKeepsBalanced(es);
    BalanceCounts(Run(Init, es).jobs, c);
  }

  /**
   So every recurring chain has exactly one job that is not SUCCESS, and none in the worker's handover,
   if and only if no late write has taken one of its successes away for good.
   */
  lemma OneUnfinishedJobPerChain(es: seq<Event>, c: nat)
    requires Repeating(Run(Init, es).jobs, c)
    ensures var st := Run(Init, es);
            if InHandover(st, c) then Unfinished(st.jobs, c) == {} <==> Undone(st.jobs, c) == 0
            else |Unfinished(st.jobs, c)| == 1 <==> Undone(st.jobs, c) == 0
  {
    UnfinishedJobsOfChain(es, c);
  }

  // ---- forward in time ----

  predicate Earlier(a: Option<int>, b: Option<int>) {
    b.Some? && (a.Some? ==> a.value < b.value)
  }

  /** A job created to follow another is due later than that one. */
  ghost predicate LinkOk(jobs: seq<Job>, i: nat) {
    i < |jobs| ==>
      && GoodSchedule(jobs[i].cron)
      && (jobs[i].origin.Some? ==>
            jobs[i].origin.value < i && Earlier(jobs[jobs[i].origin.value].runAt, jobs[i].runAt))
  }

  ghost predicate LinksOk(jobs: seq<Job>) {
    forall i: nat :: LinkOk(jobs, i)
  }

  lemma NextKeepsLinks(st: State, e: Event)
    requires Inv(st) && LinksOk(st.jobs) && GoodEvent(e)
    ensures LinksOk(Next(st, e).jobs)
  {
    if Enabled(st, e) {
      StepKeepsPlace(st, e);
      var jobs' := Do(st, e).jobs;
      if e.Continue? {
        ContinueMovesForward(st);
      } else if e.Enqueue? {
        AddedJob(st, e);
      }
      hide Do, NextRun, Inv, InRange;
      forall i: nat ensures LinkOk(jobs', i) {
        assert LinkOk(st.jobs, i);
      }
    }
  }

  lemma ContinueMovesForward(st: State)
    requires Inv(st) && LinksOk(st.jobs) && Enabled(st, Continue)
    ensures var (jobs', id) := (Do(st, Continue).jobs, st.worker.id);
            && id < |st.jobs| && |jobs'| == |st.jobs| + 1
            && jobs'[|st.jobs|].origin == Some(id) && Earlier(st.jobs[id].runAt, jobs'[|st.jobs|].runAt)
            && GoodSchedule(jobs'[|st.jobs|].cron)
  {
    assert LinkOk(st.jobs, st.worker.id);
    AddedJob(st, Continue);
    hide NextRun, InRange, JobsOk, TodoOk, Do;
    NextRunAdvances(st.jobs[st.worker.id].cron.spec, st.clock);
  }

  lemma {:induction false} RunKeepsLinks(es: seq<Event>)
    requires GoodRun(es)
    ensures LinksOk(Run(Init, es).jobs)
  {
    if es != [] {
      var before := es[..|es| - 1];
      assert forall i :: 0 <= i < |before| ==> before[i] == es[i];
      hide Next, LinksOk, Inv;
      RunKeepsInv(before);
      RunKeepsLinks(before);
      NextKeepsLinks(Run(Init, before), es[|es| - 1]);
    } else {
      assert Run(Init, es).jobs == [];
    }
  }

  /** Job `j` follows job `i` directly or through others. */
  ghost predicate Descends(jobs: seq<Job>, i: nat, j: nat)
    decreases j
  {
    && i < j < |jobs| && jobs[j].origin.Some? && jobs[j].origin.value < j
    && (jobs[j].origin == Some(i) || Descends(jobs, i, jobs[j].origin.value))
  }

  /** Along a chain each job is due strictly later than those it follows, whatever administrators do. */
  lemma {:induction false} ChainMovesForward(es: seq<Event>, i: nat, j: nat)
    requires GoodRun(es) && Descends(Run(Init, es).jobs, i, j)
    ensures var jobs := Run(Init, es).jobs; Earlier(jobs[i].runAt, jobs[j].runAt)
    decreases j
  {
    RunKeepsLinks(es);
    var jobs := Run(Init, es).jobs;
    assert LinkOk(jobs, j);
    if jobs[j].origin != Some(i) {
      ChainMovesForward(es, i, jobs[j].origin.value);
    }
  }

  // ---- chains nobody wrote over ----

  ghost predicate Untouched(jobs: seq<Job>, c: nat) {
    forall i: nat :: i < |jobs| && jobs[i].chain == c ==> jobs[i].undone == 0
  }

  /** Of two jobs of a chain no late write has hit, the older is done and the younger follows it. */
  ghost predicate LineOk(jobs: seq<Job>, i: nat, j: nat) {
    i < j < |jobs| && jobs[i].chain == jobs[j].chain && Untouched(jobs, jobs[i].chain) ==>
      jobs[i].status == SUCCESS && jobs[i].successor.Some? && Descends(jobs, i, j)
  }

  ghost predicate LinesOk(jobs: seq<Job>) {
    forall i: nat, j: nat :: LineOk(jobs, i, j)
  }

  lemma {:induction false} DescendsStays(jobs: seq<Job>, jobs': seq<Job>, i: nat, j: nat)
    requires SamePlaces(jobs, jobs') && Descends(jobs, i, j)
    ensures Descends(jobs', i, j)
    decreases j
  {
    assert SamePlace(jobs[j], jobs'[j]);
    if jobs[j].origin != Some(i) {
      DescendsStays(jobs, jobs', i, jobs[j].origin.value);
    }
  }

  /** A job that is done and followed stays so unless a late write hits it. */
  lemma DoneStays(st: State, e: Event, i: nat)
    requires Inv(st) && Enabled(st, e) && i < |st.jobs| && i < |Do(st, e).jobs|
    ensures st.jobs[i].undone <= Do(st, e).jobs[i].undone
    ensures st.jobs[i].status == SUCCESS && st.jobs[i].successor.Some? && Do(st, e).jobs[i].undone == 0 ==>
              Do(st, e).jobs[i].status == SUCCESS && Do(st, e).jobs[i].successor.Some?
  {
    hide Batch, NextRun, JobOk, TodoOk;
  }

  lemma UntouchedBefore(st: State, e: Event, c: nat)
    requires Inv(st) && Enabled(st, e) && Untouched(Do(st, e).jobs, c)
    ensures Untouched(st.jobs, c)
  {
    StepKeepsPlace(st, e);
    hide Do, Inv, Enabled;
    forall i: nat | i < |st.jobs| && st.jobs[i].chain == c ensures st.jobs[i].undone == 0 {
      DoneStays(st, e, i);
      assert SamePlace(st.jobs[i], Do(st, e).jobs[i]);
    }
  }

  lemma OldLineStays(st: State, e: Event, i: nat, j: nat)
    requires Inv(st) && Enabled(st, e) && LineOk(st.jobs, i, j) && j < |st.jobs|
    ensures LineOk(Do(st, e).jobs, i, j)
  {
    StepKeepsPlace(st, e);
    var jobs' := Do(st, e).jobs;
    hide Do, Inv, Enabled;
    if i < j && jobs'[i].chain == jobs'[j].chain && Untouched(jobs', jobs'[i].chain) {
      assert SamePlace(st.jobs[i], jobs'[i]) && SamePlace(st.jobs[j], jobs'[j]);
      UntouchedBefore(st, e, jobs'[i].chain);
      DoneStays(st, e, i);
      DescendsStays(st.jobs, jobs', i, j);
    }
  }

  /** The successor that is created follows the last job of its chain. */
  lemma NewLineHolds(st: State, i: nat)
    requires Inv(st) && LinesOk(st.jobs) && PlacesOk(st.jobs) && Enabled(st, Continue) && i < |st.jobs|
    ensures LineOk(Do(st, Continue).jobs, i, |st.jobs|)
  {
    var (w, jobs') := (st.worker.id, Do(st, Continue).jobs);
    var n := |st.jobs|;
    StepKeepsPlace(st, Continue);
    hide Batch, NextRun, JobOk, TodoOk;
    assert jobs'[n].origin == Some(w) && jobs'[n].chain == st.jobs[w].chain;
    if jobs'[i].chain == jobs'[n].chain && Untouched(jobs', jobs'[i].chain) {
      UntouchedBefore(st, Continue, jobs'[i].chain);
      assert st.jobs[w].undone == 0 && st.jobs[w].successor.None?;
      assert LineOk(st.jobs, w, i) && LineOk(st.jobs, i, w);
      if i < w {
        DescendsStays(st.jobs, jobs', i, w);
        DoneStays(st, Continue, i);
      }
    }
  }

  lemma NextKeepsLines(st: State, e: Event)
    requires Inv(st) && PlacesOk(st.jobs) && LinesOk(st.jobs)
    ensures LinesOk(Next(st, e).jobs)
  {
    if Enabled(st, e) {
      var jobs' := Do(st, e).jobs;
      StepAddsOne(st, e);
      hide Do, Inv, Enabled;
      forall i: nat, j: nat ensures LineOk(jobs', i, j) {
        if j < |st.jobs| {
          OldLineStays(st, e, i, j);
        } else if e.Continue? && i < |st.jobs| {
          NewLineHolds(st, i);
        } else if e.Enqueue? && i < |st.jobs| {
          assert PlaceOk(st.jobs, i);
        }
      }
    }
  }

  lemma StepAddsOne(st: State, e: Event)
    requires Enabled(st, e)
    ensures SamePlaces(st.jobs, Do(st, e).jobs)
    ensures |Do(st, e).jobs| == |st.jobs| + if e.Enqueue? || e.Continue? then 1 else 0
    ensures e.Enqueue? ==> Do(st, e).jobs[|st.jobs|].chain == |st.jobs|
  {
    StepKeepsPlace(st, e);
    hide Batch, NextRun;
  }

  lemma {:induction false} RunKeepsLines(es: seq<Event>)
    ensures LinesOk(Run(Init, es).jobs)
  {
    if es != [] {
      hide Next, LinesOk, PlacesOk, Inv;
      RunKeepsInv(es[..|es| - 1]);
      RunKeepsPlaces(es[..|es| - 1]);
      RunKeepsLines(es[..|es| - 1]);
      NextKeepsLines(Run(Init, es[..|es| - 1]), es[|es| - 1]);
    } else {
      assert Run(Init, es).jobs == [];
    }
  }

  /**
   Unless a late write has hit a chain, it is one line: of any two of its jobs the older one is done, and
   the younger follows it, so it is due strictly later.
   */
  lemma UntouchedChainIsALine(es: seq<Event>, i: nat, j: nat)
    requires GoodRun(es)
    requires var jobs := Run(Init, es).jobs;
             i < j < |jobs| && jobs[i].chain == jobs[j].chain && Untouched(jobs, jobs[i].chain)
    ensures var jobs := Run(Init, es).jobs;
            jobs[i].status == SUCCESS && Descends(jobs, i, j) && Earlier(jobs[i].runAt, jobs[j].runAt)
  {
    RunKeepsLines(es);
    assert LineOk(Run(Init, es).jobs, i, j);
    ChainMovesForward(es, i, j);
  }
}
