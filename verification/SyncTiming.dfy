/**
 The life of one `FinancialSync` row when attempts on it do not overlap: a sweep finds it due and attempts
 it some time later, staff retry it by hand when it is dead-lettered, and the organization's retry attempts
 it once more at once, without looking whether it is still due.
 */
module SyncTiming {
  import opened Common
  import opened SyncRow
  import Backoff

  /**
   `found` tells when the sweep under way found the row due, `kicks` counts the attempts that retries have
   started and that are still to come, and `reading` holds the retries that have read the row and not yet
   written it. The rest is remembered: `overwrites` counts the writes that hit a row that was SUCCESS,
   and `onDead` tells that the row's success was recorded over a dead letter.
   */
  datatype State = State(row: Row, found: Option<int>, kicks: nat, reading: map<nat, bool>,
                         overwrites: nat, onDead: bool)

  datatype Event =
    | Find(now: int)
    | SweepAttempt(outcome: Outcome, now: int)
    | ReadForRetry(id: nat)
    | WriteRetry(id: nat, now: int, kick: bool)
    | DirectAttempt(outcome: Outcome, now: int)

  const Init := State(NewRow, None, 0, map[], 0, false)

  function Hit(st: State): nat {
    if st.row.status.SUCCESS? then st.overwrites + 1 else st.overwrites
  }

  /** An attempt looks at nothing but the attempt count of the row it loads. */
  function Attempted(st: State, o: Outcome, now: int): State {
    st.(row := Recorded(st.row, st.row.attemptCount + 1, o, now),
        overwrites := Hit(st),
        onDead := o.Ok? && (st.row.status.DEAD_LETTER? || st.onDead))
  }

  predicate Enabled(st: State, e: Event) {
    match e
    case Find(now) => st.found.None? && Due(st.row, now)
    case SweepAttempt(_, now) => st.found.Some? && st.found.value <= now
    case ReadForRetry(id) => id !in st.reading && Retryable(st.row)
    case WriteRetry(id, _, _) => id in st.reading
    case DirectAttempt(_, _) => st.kicks > 0
  }

  function Do(st: State, e: Event): State
    requires Enabled(st, e)
  {
    match e
    case Find(now) => st.(found := Some(now))
    case SweepAttempt(o, now) => Attempted(st, o, now).(found := None)
    case ReadForRetry(id) => st.(reading := st.reading[id := st.row.error.Some?])
    case WriteRetry(id, now, kick) =>
      st.(row := Rearmed(st.row, st.reading[id], now), reading := st.reading - {id},
          kicks := if kick then st.kicks + 1 else st.kicks,
          overwrites := Hit(st), onDead := false)
    case DirectAttempt(o, now) => Attempted(st, o, now).(kicks := st.kicks - 1)
  }

  function Next(st: State, e: Event): State {
    if Enabled(st, e) then Do(st, e) else st
  }

  function Run(es: seq<Event>): State {
    if es == [] then Init else Next(Run(es[..|es| - 1]), es[|es| - 1])
  }

  // ---- rows that are attempted only when due and retried only when dead ----

  ghost predicate Orderly(r: Row) {
    && (r.status in {PENDING, RETRYING, SUCCESS, DEAD_LETTER})
    && (r.status == DEAD_LETTER <==> r.error == Some(false))
    && (r.status == DEAD_LETTER ==> r.attemptCount >= MAX_ATTEMPTS)
    && (r.status == RETRYING <==> 1 <= r.attemptCount < MAX_ATTEMPTS && r.status != SUCCESS)
    && |r.history| == r.attemptCount + (if r.status == SUCCESS then 1 else 0)
    && (forall i :: 0 <= i < |r.history| ==> r.history[i].number == i + 1)
    && (forall i :: 0 <= i < r.attemptCount ==>
          r.history[i].status == if i + 1 < MAX_ATTEMPTS then RETRYING else DEAD_LETTER)
    && (r.status == SUCCESS ==> r.history[|r.history| - 1].status == SUCCESS)
    && (if r.attemptCount < MAX_ATTEMPTS then r.rearmed == 0
        else r.attemptCount == 4 + r.rearmed + if r.status == DEAD_LETTER then 1 else 0)
    && (r.status == RETRYING ==>
          r.nextAttemptAt == Some(r.history[r.attemptCount - 1].at + Backoff.BackoffMs(r.attemptCount)))
    && (forall i :: 0 <= i < |r.history| - 1 && i + 1 < MAX_ATTEMPTS ==>
          r.history[i + 1].at >= r.history[i].at + Backoff.BackoffMs(i + 1))
  }

  lemma RecordedKeepsOrderly(r: Row, o: Outcome, now: int)
    requires Orderly(r) && Due(r, now)
    ensures Orderly(Recorded(r, r.attemptCount + 1, o, now))
  {
  }

  lemma RearmedKeepsOrderly(r: Row, now: int)
    requires Orderly(r) && Retryable(r)
    ensures Orderly(Rearmed(r, r.error.Some?, now))
  {
  }

  // ---- what every run keeps ----

  /** Until the first dead letter nobody has retried anything, so only sweeps attempt the row. */
  ghost predicate Young(st: State) {
    && Orderly(st.row) && st.row.attemptCount < MAX_ATTEMPTS
    && (st.found.Some? ==> Due(st.row, st.found.value))
    && st.kicks == 0 && st.reading == map[] && st.overwrites == 0 && !st.onDead
  }

  /** The first five entries of the history: four automatic retries, far enough apart, and the dead letter. */
  ghost predicate FirstFive(h: seq<HistoryEntry>) {
    && |h| >= 5
    && (forall i :: 0 <= i < 5 ==> h[i].status == if i < 4 then RETRYING else DEAD_LETTER)
    && (forall i :: 0 <= i < 4 ==> h[i + 1].at >= h[i].at + Backoff.BackoffMs(i + 1))
  }

  ghost predicate Old(st: State) {
    var r := st.row;
    && FirstFive(r.history) && r.attemptCount >= 5
    && (r.status in {PENDING, SUCCESS, DEAD_LETTER})
    && r.error.Some? && (r.error == Some(false) <==> r.status.DEAD_LETTER? || st.onDead)
    && (st.onDead ==> r.status.SUCCESS?)
    && (forall id :: id in st.reading ==> st.reading[id])
    && |r.history| == r.attemptCount + (if r.status.SUCCESS? then 1 else 0) + st.overwrites
    && (st.overwrites == 0 ==> forall i :: 0 <= i < |r.history| ==> r.history[i].number == i + 1)
    && r.attemptCount + st.kicks + (if st.found.Some? || r.status.PENDING? then 1 else 0) <= 5 + 2 * r.rearmed
  }

  ghost predicate Inv(st: State) {
    Young(st) || Old(st)
  }

  lemma YoungStep(st: State, e: Event)
    requires Young(st) && Enabled(st, e)
    ensures Inv(Do(st, e))
  {
    assert !Retryable(st.row);
    if e.SweepAttempt? {
      RecordedKeepsOrderly(st.row, e.outcome, e.now);
      if st.row.attemptCount == 4 {
        FifthFailure(st.row, e.now);
      }
      assert st.row.status in {PENDING, RETRYING};
    }
    hide Orderly, FirstFive;
  }

  lemma FifthFailure(r: Row, now: int)
    requires Orderly(r) && Due(r, now) && r.attemptCount == 4
    ensures var r' := Recorded(r, 5, Failed, now);
            && FirstFive(r'.history) && |r'.history| == 5 && r'.status == DEAD_LETTER && r'.rearmed == 0
            && r'.error == Some(false) && forall i :: 0 <= i < 5 ==> r'.history[i].number == i + 1
  {
  }

  lemma OldAttempt(st: State, o: Outcome, now: int)
    requires Old(st)
    ensures st.kicks > 0 ==> Old(Attempted(st, o, now).(kicks := st.kicks - 1))
    ensures st.found.Some? ==> Old(Attempted(st, o, now).(found := None))
  {
  }

  lemma OldStep(st: State, e: Event)
    requires Old(st) && Enabled(st, e)
    ensures Old(Do(st, e))
  {
    if e.SweepAttempt? || e.DirectAttempt? {
      OldAttempt(st, e.outcome, e.now);
      hide Old, Recorded;
    } else {
      hide FirstFive;
    }
  }

  lemma {:induction false} RunKeepsInv(es: seq<Event>)
    ensures Inv(Run(es))
  {
    if es != [] {
      var (before, e) := (Run(es[..|es| - 1]), es[|es| - 1]);
      RunKeepsInv(es[..|es| - 1]);
      hide Do, Enabled, Young, Old;
      if Enabled(before, e) {
        if Young(before) { YoungStep(before, e); } else { OldStep(before, e); }
      }
    } else {
      assert Young(Init);
    }
  }

  // ---- what holds after every run ----

  /** The range of RETRYING, the dead letter's unresolved error and the number of attempts, in every run. */
  lemma StatusesHold(es: seq<Event>)
    ensures var r := Run(es).row;
            && (r.status in {PENDING, RETRYING, SUCCESS, DEAD_LETTER})
            && (r.status == RETRYING ==> 1 <= r.attemptCount <= 4)
            && (r.status == DEAD_LETTER ==> r.attemptCount >= 5 && r.error == Some(false))
            && r.attemptCount <= 5 + 2 * r.rearmed
  {
    RunKeepsInv(es);
    hide FirstFive;
  }

  /** The history numbers the attempts from 1 on, and has as many entries as there were. */
  ghost predicate Numbered(r: Row) {
    && |r.history| == r.attemptCount + (if r.status.SUCCESS? then 1 else 0)
    && forall i :: 0 <= i < |r.history| ==> r.history[i].number == i + 1
  }

  predicate ErrorAgrees(r: Row) {
    r.status.DEAD_LETTER? <==> r.error == Some(false)
  }

  /** The history has one entry too many for each write that hit a row that was SUCCESS. */
  lemma {:induction false} HistoryCounts(es: seq<Event>)
    ensures var st := Run(es);
            |st.row.history| == st.row.attemptCount + (if st.row.status.SUCCESS? then 1 else 0) + st.overwrites
  {
    RunKeepsInv(es);
    hide FirstFive;
  }

  /**
   Status, counter, error row and history agree if and only if no attempt or retry has written a row that
   was SUCCESS, and its success was not recorded over a dead letter.
   */
  lemma SyncAccounting(es: seq<Event>)
    ensures var st := Run(es);
            && (Numbered(st.row) <==> st.overwrites == 0)
            && (ErrorAgrees(st.row) <==> !st.onDead)
  {
    RunKeepsInv(es);
    hide FirstFive;
  }

  ghost predicate Agrees(r: Row) {
    Numbered(r) && ErrorAgrees(r)
  }

  /** One more attempt keeps the agreement exactly if the row is neither SUCCESS nor, when it succeeds, dead. */
  lemma {:induction false} AttemptKeepsAccounting(es: seq<Event>, e: Event)
    requires (e.SweepAttempt? || e.DirectAttempt?) && Enabled(Run(es), e) && Agrees(Run(es).row)
    ensures var r := Run(es).row;
            Agrees(Run(es + [e]).row) <==> !r.status.SUCCESS? && !(e.outcome.Ok? && r.status.DEAD_LETTER?)
  {
    SyncAccounting(es);
    SyncAccounting(es + [e]);
    assert (es + [e])[..|es|] == es;
    hide Numbered, ErrorAgrees, Recorded;
  }

  /** A retry's write keeps it exactly if the row is not SUCCESS, whatever the retry read. */
  lemma {:induction false} RetryKeepsAccounting(es: seq<Event>, e: Event)
    requires e.WriteRetry? && Enabled(Run(es), e) && Agrees(Run(es).row)
    ensures Agrees(Run(es + [e]).row) <==> !Run(es).row.status.SUCCESS?
  {
    SyncAccounting(es);
    SyncAccounting(es + [e]);
    assert (es + [e])[..|es|] == es;
    hide Numbered, ErrorAgrees, Rearmed;
  }

  /** A retry re-arms whatever the row has become, and resolves an error only if it read one. */
  lemma RetryWrites(st: State, e: Event)
    requires e.WriteRetry? && Enabled(st, e)
    ensures var (r, r') := (st.row, Next(st, e).row);
            && r'.status == PENDING && r'.nextAttemptAt == Some(e.now)
            && r' == r.(status := r'.status, nextAttemptAt := r'.nextAttemptAt, error := r'.error, rearmed := r.rearmed + 1)
            && (st.reading[e.id] && r.error.Some? ==> r'.error == Some(true))
            && (!st.reading[e.id] || r.error.None? ==> r'.error == r.error)
  {
  }

  /** The row has been retried and found due, and the retry's own attempt is still to come. */
  function Found(st: State, id: nat, now: int): State {
    Next(Next(Next(st, ReadForRetry(id)), WriteRetry(id, now, true)), Find(now))
  }

  /** A dead-lettered row is retried by hand; the sweep attempts it; then comes the retry's own attempt. */
  function RetriedTwice(st: State, id: nat, now: int, sweep: Outcome, direct: Outcome): State {
    Next(Next(Found(st, id, now), SweepAttempt(sweep, now)), DirectAttempt(direct, now))
  }

  /**
   When the sweep's attempt fails and the other succeeds, the row is SUCCESS with an unresolved error; when
   it is the other way round, a success becomes a dead letter and one number is in the history twice.
   */
  lemma DirectAttemptDisagrees(es: seq<Event>, id: nat, now: int, ok: Outcome)
    requires Run(es).row.status.DEAD_LETTER? && Run(es).found.None? && id !in Run(es).reading && ok.Ok?
    ensures var r := RetriedTwice(Run(es), id, now, Failed, ok).row;
            r.status.SUCCESS? && r.error == Some(false)
    ensures var r := RetriedTwice(Run(es), id, now, ok, Failed).row;
            && r.status.DEAD_LETTER? && |r.history| >= 2
            && r.history[|r.history| - 1].number == r.history[|r.history| - 2].number
  {
    StatusesHold(es);
    hide Run;
    FoundAgain(Run(es), id, now);
    hide Next;
    BothAttempt(Found(Run(es), id, now), now, Failed, ok);
    BothAttempt(Found(Run(es), id, now), now, ok, Failed);
  }

  lemma FoundAgain(st: State, id: nat, now: int)
    requires st.row.status.DEAD_LETTER? && st.row.error == Some(false) && st.row.attemptCount >= 5
    requires st.found.None? && id !in st.reading
    ensures var st' := Found(st, id, now);
            && st'.row == Rearmed(st.row, true, now) && st'.found == Some(now) && st'.kicks == st.kicks + 1
  {
    var s1 := Next(st, ReadForRetry(id));
    assert s1 == st.(reading := st.reading[id := true]);
  }

  lemma BothAttempt(st: State, now: int, first: Outcome, second: Outcome)
    requires st.found == Some(now) && st.kicks > 0
    ensures var r1 := Recorded(st.row, st.row.attemptCount + 1, first, now);
            Next(Next(st, SweepAttempt(first, now)), DirectAttempt(second, now)).row
            == Recorded(r1, r1.attemptCount + 1, second, now)
  {
    hide Recorded;
  }

  /** Failed attempts `i` to `j` of the automatic retries are at least their backoffs apart. */
  lemma {:induction false} ElapsedCoversBackoffs(h: seq<HistoryEntry>, i: nat, j: nat)
    requires i <= j < |h| && j < MAX_ATTEMPTS
    requires forall k :: 0 <= k < j ==> h[k + 1].at >= h[k].at + Backoff.BackoffMs(k + 1)
    ensures h[j].at - h[i].at >= (Backoff.TotalMinutes(j) - Backoff.TotalMinutes(i)) * Backoff.MS_PER_MINUTE
    decreases j - i
  {
    if i < j {
      ElapsedCoversBackoffs(h, i, j - 1);
      assert h[j - 1 + 1].at >= h[j - 1].at + Backoff.BackoffMs(j);
    }
  }

  /**
   Whatever is attempted directly or retried late, a sync is dead-lettered for the first time by its fifth
   attempt, after four RETRYING ones, and never less than thirty minutes after its first failure.
   */
  lemma FirstDeadLetter(es: seq<Event>, i: nat)
    requires i < |Run(es).row.history| && Run(es).row.history[i].status == DEAD_LETTER
    ensures var h := Run(es).row.history;
            && i >= 4
            && h[4].status == DEAD_LETTER
            && (forall k :: 0 <= k < 4 ==> h[k].status == RETRYING)
            && h[4].at - h[0].at >= 30 * 60 * 1_000
  {
    RunKeepsInv(es);
    var st := Run(es);
    assert !Young(st);
    ElapsedCoversBackoffs(st.row.history, 0, 4);
    Backoff.FirstWaits(1);
  }
}
