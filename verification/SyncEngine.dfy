/**
 The sync engine and its connector in the source's own form: objects that update rows and ledgers
 in place. `trace` is the run of the `SyncChain` machine the updates amount to, so whatever holds
 after every run of that machine holds of every state these methods reach.
 */
module SyncEngine {
  import opened Common
  import opened ErpLedger
  import opened SyncRow
  import opened SyncChain
  import SyncTiming
  import Backoff

  const MAX_HTTP_ATTEMPTS := 3
  const SWEEP_BATCH_SIZE := 20

  /** What the network does to one HTTP try. */
  datatype Try = NotProcessed | AnswerLost | Answered

  /** What one attempt meets: the connection, the tries of its three calls and the time it ends. */
  datatype Environment = Environment(connected: Option<Connection>, invoice: seq<Try>, receipt: seq<Try>,
                                     payment: seq<Try>, now: int)

  predicate WellFormed(env: Environment) {
    |env.invoice| == |env.receipt| == |env.payment| == MAX_HTTP_ATTEMPTS
  }

  /** Whether an attempt for `src` ends well: charges need an answer to each of their three calls. */
  predicate Succeeds(src: Source, env: Environment) {
    || src.provider.INTERNAL?
    || (env.connected.Some?
        && (src.kind !in {SUBSCRIPTION_ACTIVATED, SUBSCRIPTION_RENEWED, PAYMENT_SUCCEEDED}
            || (Answered in env.invoice && Answered in env.receipt && Answered in env.payment)))
  }

  datatype RetryResult = Retried | NotFound | BadRequest

  /** The ids of `order` whose rows are due, in that order. */
  function DueIds(order: seq<SyncId>, rows: map<SyncId, Row>, now: int): (due: seq<SyncId>)
    ensures forall s :: s in due <==> s in order && s in rows && SyncRow.Due(rows[s], now)
  {
    if order == [] then []
    else (if order[0] in rows && SyncRow.Due(rows[order[0]], now) then [order[0]] else [])
         + DueIds(order[1..], rows, now)
  }

  /** The batch of one sweep: the first twenty due rows by creation. */
  function Batch(order: seq<SyncId>, rows: map<SyncId, Row>, now: int): seq<SyncId> {
    var due := DueIds(order, rows, now);
    if |due| <= SWEEP_BATCH_SIZE then due else due[..SWEEP_BATCH_SIZE]
  }

  predicate Distinct<T(==)>(s: seq<T>) {
    forall i, j :: 0 <= i < j < |s| ==> s[i] != s[j]
  }

  lemma {:induction false} DueIdsDistinct(order: seq<SyncId>, rows: map<SyncId, Row>, now: int)
    requires Distinct(order)
    ensures Distinct(DueIds(order, rows, now))
  {
    if order != [] {
      var rest := order[1..];
      assert forall i :: 0 <= i < |rest| ==> rest[i] == order[i + 1];
      DueIdsDistinct(rest, rows, now);
    }
  }

  function Elements<T>(s: seq<T>): set<T> {
    set x | x in s
  }

  /** Row `s` was created before row `t`. */
  ghost predicate Precedes(order: seq<SyncId>, s: SyncId, t: SyncId) {
    exists i, j :: 0 <= i < j < |order| && order[i] == s && order[j] == t
  }

  ghost predicate Sorted(order: seq<SyncId>, ids: seq<SyncId>) {
    forall x, y :: 0 <= x < y < |ids| ==> Precedes(order, ids[x], ids[y])
  }

  lemma PrecedesLater(order: seq<SyncId>, s: SyncId, t: SyncId)
    requires order != [] && Precedes(order[1..], s, t)
    ensures Precedes(order, s, t)
  {
    var i, j :| 0 <= i < j < |order[1..]| && order[1..][i] == s && order[1..][j] == t;
    assert order[i + 1] == s && order[j + 1] == t;
  }

  lemma PrecedesAll(order: seq<SyncId>, t: SyncId)
    requires order != [] && t in order[1..]
    ensures Precedes(order, order[0], t)
  {
    var j :| 0 <= j < |order[1..]| && order[1..][j] == t;
    assert order[0] == order[0] && order[j + 1] == t;
  }

  /** With or without the first row before them, rows in order stay in order. */
  lemma SortedLater(order: seq<SyncId>, rest: seq<SyncId>, first: bool)
    requires order != [] && Sorted(order[1..], rest) && forall s :: s in rest ==> s in order[1..]
    ensures Sorted(order, (if first then [order[0]] else []) + rest)
  {
    var d := (if first then [order[0]] else []) + rest;
    var skip := |d| - |rest|;
    hide Precedes;
    forall x, y | 0 <= x < y < |d| ensures Precedes(order, d[x], d[y]) {
      assert d[y] == rest[y - skip] && d[y] in rest;
      if x < skip {
        PrecedesAll(order, d[y]);
      } else {
        assert d[x] == rest[x - skip] && Precedes(order[1..], rest[x - skip], rest[y - skip]);
        PrecedesLater(order, d[x], d[y]);
      }
    }
  }

  lemma {:induction false} DueIdsOrdered(order: seq<SyncId>, rows: map<SyncId, Row>, now: int)
    ensures Sorted(order, DueIds(order, rows, now))
  {
    hide SyncRow.Due, Sorted;
    if order != [] {
      DueIdsOrdered(order[1..], rows, now);
      SortedLater(order, DueIds(order[1..], rows, now), order[0] in rows && SyncRow.Due(rows[order[0]], now));
    } else {
      NothingIsSorted(order);
    }
  }

  lemma NothingIsSorted(order: seq<SyncId>)
    ensures Sorted(order, [])
  {
  }

  /**
   A sweep takes at most twenty rows, each once and all of them due, in the order of their creation; a due
   row that it leaves out was created after twenty that it takes.
   */
  lemma BatchIsDue(order: seq<SyncId>, rows: map<SyncId, Row>, now: int)
    requires Distinct(order)
    ensures var due := Batch(order, rows, now);
            && |due| <= 20 && Distinct(due)
            && (forall s :: s in due ==>
                  && s in rows && rows[s].status in {PENDING, RETRYING}
                  && (rows[s].nextAttemptAt.Some? ==> rows[s].nextAttemptAt.value <= now))
            && Sorted(order, due)
            && (forall s ::
                  && s in order && s in rows && rows[s].status in {PENDING, RETRYING}
                  && (rows[s].nextAttemptAt.Some? ==> rows[s].nextAttemptAt.value <= now) && s !in due ==>
                    |due| == 20 && forall x :: 0 <= x < |due| ==> Precedes(order, due[x], s))
  {
    DueReads(rows, now);
    hide SyncRow.Due, DueIds;
    DueIdsDistinct(order, rows, now);
    DueIdsOrdered(order, rows, now);
    var (all, due) := (DueIds(order, rows, now), Batch(order, rows, now));
    forall s | s in order && s in rows && SyncRow.Due(rows[s], now) && s !in due
      ensures |due| == 20 && forall x :: 0 <= x < |due| ==> Precedes(order, due[x], s)
    {
      assert s in all;
      var y :| 0 <= y < |all| && all[y] == s;
      forall x | 0 <= x < |due| ensures Precedes(order, due[x], s) {
        assert due[x] == all[x] && due[x] in due && Precedes(order, all[x], all[y]);
      }
    }
    forall x, y | 0 <= x < y < |due| ensures Precedes(order, due[x], due[y]) {
      assert due[x] == all[x] && due[y] == all[y];
    }
  }

  lemma DueReads(rows: map<SyncId, Row>, now: int)
    ensures forall s :: s in rows ==>
      (SyncRow.Due(rows[s], now) <==>
         && rows[s].status in {PENDING, RETRYING}
         && (rows[s].nextAttemptAt.Some? ==> rows[s].nextAttemptAt.value <= now))
  {
  }

  lemma BatchIsDistinct(order: seq<SyncId>, rows: map<SyncId, Row>, now: int)
    requires Distinct(order)
    ensures Distinct(Batch(order, rows, now))
    ensures forall s :: s in Batch(order, rows, now) ==> s in rows && SyncRow.Due(rows[s], now)
  {
    DueIdsDistinct(order, rows, now);
    hide DueIds, SyncRow.Due;
  }

  lemma OneMoreElement<T>(s: seq<T>, i: nat)
    requires Distinct(s) && i < |s|
    ensures s[i] !in Elements(s[..i])
    ensures Elements(s[..i + 1]) == Elements(s[..i]) + {s[i]}
  {
    assert s[..i + 1] == s[..i] + [s[i]];
  }

  /** The ledger after the tries of one call: the loop stops at the first answer. */
  function AfterTries(l: Ledger, e: Entry, tries: seq<Try>): Ledger
    decreases |tries|
  {
    if tries == [] then l
    else if tries[0].Answered? then Post(l, e)
    else AfterTries(if tries[0].AnswerLost? then Post(l, e) else l, e, tries[1..])
  }

  predicate Processed(tries: seq<Try>) {
    exists k :: 0 <= k < |tries| && tries[k] != NotProcessed
  }

  /** However many tries the ERP processes, the document is there once, and there if any was. */
  lemma {:induction false} TriesPostOnce(l: Ledger, e: Entry, tries: seq<Try>)
    ensures AfterTries(l, e, tries) == if Processed(tries) then Post(l, e) else l
    decreases |tries|
  {
    if tries != [] {
      var rest := tries[1..];
      assert forall k :: 0 <= k < |rest| ==> rest[k] == tries[k + 1];
      assert Post(Post(l, e), e) == Post(l, e);
      TriesPostOnce(l, e, rest);
      TriesPostOnce(Post(l, e), e, rest);
      if Processed(rest) {
        var k :| 0 <= k < |rest| && rest[k] != NotProcessed;
        assert tries[k + 1] != NotProcessed;
      }
    }
  }

  // ---- the machine's steps, as the methods below take them ----

  lemma SendRuns(es: seq<SyncChain.Event>, pid: nat)
    requires Enabled(Run(Init, es), Send(pid))
    ensures var st := Run(Init, es);
            var a := st.attempts[pid];
            Run(Init, es + [Send(pid)])
            == st.(sent := st.sent + {RequestOf(st.sources[a.sync], a)})
  {
    hide Run, Find, Post, DocFor, KeyFor, Recorded;
    Extend(es, Send(pid));
  }

  lemma DeliverRuns(es: seq<SyncChain.Event>, req: SyncChain.Request)
    requires req in Run(Init, es).sent
    ensures var st := Run(Init, es);
            Run(Init, es + [Deliver(req)])
            == st.(ledgers := st.ledgers[req.ledger := Post(LedgerOf(st, req.ledger), req.entry)])
  {
    hide Run, Find, Post, DocFor, KeyFor, Recorded;
    Extend(es, Deliver(req));
  }

  lemma CreateRuns(es: seq<SyncChain.Event>, s: SyncId, src: Source)
    requires Enabled(Run(Init, es), Create(s, src))
    ensures var st := Run(Init, es);
            Run(Init, es + [Create(s, src)])
            == st.(sources := st.sources[s := src], rows := st.rows[s := NewRow])
  {
    hide Run, Find, Post, DocFor, KeyFor, Recorded;
    Extend(es, Create(s, src));
  }

  lemma BeginRuns(es: seq<SyncChain.Event>, s: SyncId)
    requires Run(Init, es).attempts == map[] && s in Run(Init, es).rows
    ensures var st := Run(Init, es);
            Run(Init, es + [Begin(0, s)])
            == st.(attempts := map[0 := Attempt(s, st.rows[s].attemptCount + 1, Loaded)])
  {
    hide Run, Find, Post, DocFor, KeyFor, Recorded;
    Extend(es, Begin(0, s));
  }

  lemma ResolveRuns(es: seq<SyncChain.Event>, a: Attempt, connected: Option<Connection>)
    requires var st := Run(Init, es); st.attempts == map[0 := a] && Tracked(st, a) && a.phase.Loaded?
    ensures var st := Run(Init, es);
            Run(Init, es + [Resolve(0, connected)])
            == st.(attempts := map[0 := a.(phase := AfterResolve(st.sources[a.sync], connected))])
  {
    var st := Run(Init, es);
    hide Run, Find, Post, DocFor, KeyFor, Recorded;
    Extend(es, Resolve(0, connected));
    var a' := a.(phase := AfterResolve(st.sources[a.sync], connected));
    assert map[0 := a][0 := a'] == map[0 := a'];
  }

  lemma BreakRuns(es: seq<SyncChain.Event>, a: Attempt)
    requires Run(Init, es).attempts == map[0 := a] && !a.phase.Ended?
    ensures Run(Init, es + [Break(0)])
         == Run(Init, es).(attempts := map[0 := a.(phase := Ended(Failed))])
  {
    hide Run, Find, Post, DocFor, KeyFor, Recorded;
    Extend(es, Break(0));
    assert map[0 := a][0 := a.(phase := Ended(Failed))] == map[0 := a.(phase := Ended(Failed))];
  }

  lemma ReceiveRuns(es: seq<SyncChain.Event>, a: Attempt, req: SyncChain.Request, id: nat)
    requires var st := Run(Init, es);
             && st.attempts == map[0 := a] && Tracked(st, a) && a.phase.Posting?
             && req == RequestOf(st.sources[a.sync], a) && req in st.sent
             && Find(LedgerOf(st, req.ledger), req.entry.key) == Some(id)
    ensures Run(Init, es + [Receive(0)])
         == Run(Init, es).(attempts := map[0 := a.(phase := AfterAnswer(a.phase, id))])
  {
    hide Run, Find, Post, DocFor, KeyFor, Recorded;
    Extend(es, Receive(0));
    var a' := a.(phase := AfterAnswer(a.phase, id));
    assert map[0 := a][0 := a'] == map[0 := a'];
  }

  lemma RecordRuns(es: seq<SyncChain.Event>, a: Attempt, now: int)
    requires var st := Run(Init, es);
             st.attempts == map[0 := a] && a.phase.Ended? && Tracked(st, a)
    ensures var st := Run(Init, es);
            Run(Init, es + [Record(0, now)])
            == st.(rows := st.rows[a.sync := Recorded(st.rows[a.sync], a.number, a.phase.outcome, now)],
                   attempts := map[])
  {
    hide Run, Find, Post, DocFor, KeyFor, Recorded;
    Extend(es, Record(0, now));
    assert map[0 := a] - {0} == map[];
  }

  lemma RetryRuns(es: seq<SyncChain.Event>, s: SyncId, now: int)
    requires var st := Run(Init, es);
             st.retries == map[] && s in st.rows && Retryable(st.rows[s])
    ensures var st := Run(Init, es);
            Run(Init, es + [ReadForRetry(0, s), WriteRetry(0, now)])
            == st.(rows := st.rows[s := Rearmed(st.rows[s], st.rows[s].error.Some?, now)])
  {
    var st := Run(Init, es);
    var p := PendingRetry(s, st.rows[s].error.Some?);
    Extend(es, ReadForRetry(0, s));
    assert Run(Init, es + [ReadForRetry(0, s)]) == st.(retries := map[0 := p]);
    Extend(es + [ReadForRetry(0, s)], WriteRetry(0, now));
    assert es + [ReadForRetry(0, s)] + [WriteRetry(0, now)]
        == es + [ReadForRetry(0, s), WriteRetry(0, now)];
    assert map[0 := p] - {0} == map[];
  }

  /** The documents that `o` names are a chain of sync `s` in `l`, and bill its event. */
  ghost predicate ChargeMade(src: Source, l: Ledger, s: SyncId, o: Outcome)
    requires o.Ok?
  {
    && o.invoice.Some? && o.receipt.Some? && o.payment.Some?
    && ChainAt(l, s, o.invoice.value, o.receipt.value, o.payment.value)
    && InvoiceBills(src, l[o.invoice.value].doc) && ReceiptBills(src, l[o.receipt.value].doc)
    && PaymentBills(src, l[o.payment.value].doc)
  }

  lemma OnlyChargesPost(es: seq<SyncChain.Event>, a: Attempt)
    requires Run(Init, es).attempts == map[0 := a] && a.phase.Posting?
    ensures a.sync in Run(Init, es).sources && NeedsCharge(Run(Init, es).sources[a.sync])
  {
    RunKeepsInv(es);
    assert 0 in Run(Init, es).attempts;
  }

  lemma AnsweredIsCharged(es: seq<SyncChain.Event>, a: Attempt, conn: Connection)
    requires var st := Run(Init, es);
             st.attempts == map[0 := a] && a.sync in st.sources && NeedsCharge(st.sources[a.sync])
    requires a.phase.Ended? && a.phase.outcome.Ok? && a.phase.outcome.connection == Some(conn)
    ensures var st := Run(Init, es);
            ChargeMade(st.sources[a.sync], LedgerOf(st, conn.ledger), a.sync, a.phase.outcome)
  {
    RunKeepsInv(es);
    var (st, o) := (Run(Init, es), a.phase.outcome);
    assert 0 in st.attempts && PhaseOk(st, a.sync, a.phase);
    hide Run, InvoiceBills, ReceiptBills, PaymentBills, NeedsCharge;
    ExactlyOnceEffect(es, conn.ledger, o.invoice.value, o.invoice.value);
    ExactlyOnceEffect(es, conn.ledger, o.receipt.value, o.receipt.value);
    ExactlyOnceEffect(es, conn.ledger, o.payment.value, o.payment.value);
  }

  /**
   How a row tells of an attempt: of its success, with the ids of what it made, or of its failure, which waits
   for the next attempt or, the fifth time, is final and has an unresolved error.
   */
  predicate RowTells(was: Row, r: Row, o: Outcome, now: int) {
    var n := was.attemptCount + 1;
    && r.rearmed == was.rearmed && r.history == was.history + [HistoryEntry(n, r.status, now)]
    && (o.Ok? ==>
          && r.status == SUCCESS && r.attemptCount == was.attemptCount
          && r.nextAttemptAt == was.nextAttemptAt && r.error == was.error
          && Kept(r.connection, o.connection, was.connection) && Kept(r.invoice, o.invoice, was.invoice)
          && Kept(r.receipt, o.receipt, was.receipt) && Kept(r.payment, o.payment, was.payment))
    && (o.Failed? ==>
          && r.attemptCount == n
          && r.connection == was.connection && r.invoice == was.invoice && r.receipt == was.receipt
          && r.payment == was.payment
          && (n < 5 ==> r.status == RETRYING && r.nextAttemptAt == Some(now + Backoff.BackoffMs(n)) && r.error == was.error)
          && (n >= 5 ==> r.status == DEAD_LETTER && r.nextAttemptAt.None? && r.error == Some(false)))
  }

  /** The new value, when there is one; else the one from before. */
  predicate Kept<T(==)>(field: Option<T>, update: Option<T>, was: Option<T>) {
    (update.Some? ==> field == update) && (update.None? ==> field == was)
  }

  lemma RecordedTells(was: Row, o: Outcome, now: int)
    ensures RowTells(was, Recorded(was, was.attemptCount + 1, o, now), o, now)
  {
    hide Backoff.BackoffMs;
  }

  /** Row `r` is what one recorded attempt makes of `was`, and the attempt ended as its environment says. */
  predicate RowSwept(src: Source, was: Row, r: Row, o: Outcome, env: Environment) {
    && r == Recorded(was, was.attemptCount + 1, o, env.now) && RowTells(was, r, o, env.now)
    && (o.Ok? <==> Succeeds(src, env))
  }

  /** The rows with an outcome were attempted once each, and the others were left alone. */
  ghost predicate Swept(sources: map<SyncId, Source>, was: map<SyncId, Row>, rows: map<SyncId, Row>,
                        outcomes: map<SyncId, Outcome>, envs: SyncId -> Environment) {
    && rows.Keys == was.Keys && outcomes.Keys <= rows.Keys && rows.Keys == sources.Keys
    && forall s :: s in rows ==>
         if s in outcomes then RowSwept(sources[s], was[s], rows[s], outcomes[s], envs(s))
         else rows[s] == was[s]
  }

  /** Every row is in step with its history, which holds while attempts do not overlap. */
  ghost predicate RowsOrderly(rows: map<SyncId, Row>) {
    forall s :: s in rows ==> SyncTiming.Orderly(rows[s])
  }

  lemma SweptRowIsOrderly(src: Source, was: Row, r: Row, o: Outcome, env: Environment, now: int)
    requires SyncTiming.Orderly(was) && Due(was, now) && env.now >= now && RowSwept(src, was, r, o, env)
    ensures SyncTiming.Orderly(r)
  {
    SyncTiming.RecordedKeepsOrderly(was, o, env.now);
  }

  /** A sweep that looked for due rows before it attempted them keeps every row in step. */
  lemma SweepKeepsRowsOrderly(sources: map<SyncId, Source>, was: map<SyncId, Row>,
                              rows: map<SyncId, Row>, outcomes: map<SyncId, Outcome>,
                              envs: SyncId -> Environment, now: int)
    requires RowsOrderly(was) && Swept(sources, was, rows, outcomes, envs)
    requires forall s :: s in outcomes ==> Due(was[s], now) && envs(s).now >= now
    ensures RowsOrderly(rows)
  {
    forall s | s in rows ensures SyncTiming.Orderly(rows[s]) {
      if s in outcomes {
        SweptRowIsOrderly(sources[s], was[s], rows[s], outcomes[s], envs(s), now);
      }
    }
  }

  lemma RetryKeepsRowsOrderly(was: map<SyncId, Row>, s: SyncId, now: int)
    requires RowsOrderly(was) && s in was && Retryable(was[s])
    ensures RowsOrderly(was[s := Rearmed(was[s], was[s].error.Some?, now)])
  {
    SyncTiming.RearmedKeepsOrderly(was[s], now);
    var rows := was[s := Rearmed(was[s], was[s].error.Some?, now)];
    forall t | t in rows ensures SyncTiming.Orderly(rows[t]) {
      assert t != s ==> rows[t] == was[t];
    }
  }

  lemma NothingSwept(sources: map<SyncId, Source>, was: map<SyncId, Row>, envs: SyncId -> Environment)
    requires was.Keys == sources.Keys
    ensures Swept(sources, was, was, map[], envs)
  {
  }

  lemma SweptOneMore(sources: map<SyncId, Source>, was: map<SyncId, Row>, rows: map<SyncId, Row>,
                     rows': map<SyncId, Row>, outcomes: map<SyncId, Outcome>,
                     envs: SyncId -> Environment, s: SyncId, o: Outcome)
    requires Swept(sources, was, rows, outcomes, envs) && s in rows && s !in outcomes
    requires rows' == rows[s := Recorded(rows[s], rows[s].attemptCount + 1, o, envs(s).now)]
    requires o.Ok? <==> Succeeds(sources[s], envs(s))
    ensures Swept(sources, was, rows', outcomes[s := o], envs)
  {
    RecordedTells(rows[s], o, envs(s).now);
    hide Recorded, RowTells, Succeeds;
  }

  class SyncEngineService {
    var sources: map<SyncId, Source>
    var rows: map<SyncId, Row>
    var order: seq<SyncId>
    var ledgers: map<nat, Ledger>
    ghost var sent: set<SyncChain.Request>
    ghost var trace: seq<SyncChain.Event>

    /** The stored state, with `attempts` under way, is where the machine is after `trace`. */
    ghost predicate Mirrors(attempts: map<nat, Attempt>)
      reads this
    {
      Run(Init, trace) == State(sources, rows, attempts, map[], ledgers, sent)
    }

    ghost predicate Valid()
      reads this
    {
      && Mirrors(map[])
      && rows.Keys == sources.Keys
      && Distinct(order)
      && (forall s :: s in order <==> s in rows)
    }

    function Stored(ledger: nat): Ledger
      reads this`ledgers
    {
      if ledger in ledgers then ledgers[ledger] else []
    }

    constructor ()
      ensures Valid() && rows == map[] && ledgers == map[]
    {
      sources, rows, order, ledgers := map[], map[], [], map[];
      sent, trace := {}, [];
    }

    /** The row a new financial event gets. */
    method CreateSync(s: SyncId, src: Source)
      requires Valid() && s !in rows
      modifies this
      ensures Valid() && rows == old(rows)[s := NewRow] && sources == old(sources)[s := src]
      ensures ledgers == old(ledgers) && order == old(order) + [s]
    {
      CreateRuns(trace, s, src);
      trace := trace + [Create(s, src)];
      rows, sources, order := rows[s := NewRow], sources[s := src], order + [s];
    }

    /** One HTTP try: the request goes out, and the ERP processes it or not. */
    method SendOnce(req: SyncChain.Request, tried: Try, ghost a: Attempt)
      requires Mirrors(map[0 := a]) && a.sync in sources && a.sync in rows && a.phase.Posting?
      requires req == RequestOf(sources[a.sync], a)
      modifies this`ledgers, this`sent, this`trace
      ensures Mirrors(map[0 := a]) && old(trace) <= trace && req in sent
      ensures Stored(req.ledger) == if tried.NotProcessed? then old(Stored(req.ledger))
                                  else Post(old(Stored(req.ledger)), req.entry)
      ensures forall c: nat :: c != req.ledger ==> Stored(c) == old(Stored(c))
    {
      hide Run, Find, Post, DocFor, KeyFor;
      SendRuns(trace, 0);
      trace, sent := trace + [Send(0)], sent + {req};
      if tried != NotProcessed {
        DeliverRuns(trace, req);
        trace := trace + [Deliver(req)];
        ledgers := ledgers[req.ledger := Post(Stored(req.ledger), req.entry)];
      }
    }

    /**
     The connector's request loop: at most three tries, each of which the ERP may process or not.
     The call is answered exactly when some try is, with the document the key stands for.
     */
    method Call(req: SyncChain.Request, tries: seq<Try>, ghost a: Attempt) returns (id: Option<nat>)
      requires |tries| == MAX_HTTP_ATTEMPTS
      requires Mirrors(map[0 := a]) && a.sync in sources && a.sync in rows && a.phase.Posting?
      requires req == RequestOf(sources[a.sync], a)
      modifies this`ledgers, this`sent, this`trace
      ensures Mirrors(map[0 := a]) && old(trace) <= trace
      ensures id.Some? <==> Answered in tries
      ensures id.Some? ==> id == Find(Stored(req.ledger), req.entry.key) && req in sent
      ensures Stored(req.ledger) == if Processed(tries) then Post(old(Stored(req.ledger)), req.entry)
                                  else old(Stored(req.ledger))
      ensures forall c: nat :: c != req.ledger ==> Stored(c) == old(Stored(c))
    {
      hide Run, Find, Post, DocFor, KeyFor, Processed;
      ghost var was := Stored(req.ledger);
      TriesPostOnce(was, req.entry, tries);
      var attempt := 0;
      while attempt < MAX_HTTP_ATTEMPTS
        invariant 0 <= attempt <= MAX_HTTP_ATTEMPTS
        invariant Mirrors(map[0 := a]) && old(trace) <= trace
        invariant Answered !in tries[..attempt]
        invariant AfterTries(Stored(req.ledger), req.entry, tries[attempt..])
               == AfterTries(was, req.entry, tries)
        invariant forall c: nat :: c != req.ledger ==> Stored(c) == old(Stored(c))
      {
        assert tries[attempt..][1..] == tries[attempt + 1..];
        SendOnce(req, tries[attempt], a);
        if tries[attempt] == Answered {
          return Find(Stored(req.ledger), req.entry.key);
        }
        attempt := attempt + 1;
      }
      assert tries[..attempt] == tries;
      id := None;
    }

    /** One call of the chain and what its answer, or the lack of one, makes of the attempt. */
    method CallStep(a: Attempt, tries: seq<Try>) returns (id: Option<nat>)
      requires |tries| == MAX_HTTP_ATTEMPTS && a.sync in sources && a.sync in rows
      requires a.phase.Posting? && Mirrors(map[0 := a])
      modifies this`ledgers, this`sent, this`trace
      ensures id.Some? <==> Answered in tries
      ensures Mirrors(map[0 := a.(phase := if id.Some? then AfterAnswer(a.phase, id.value)
                                           else Ended(Failed))])
      ensures old(trace) <= trace
      ensures forall c: nat :: c != a.phase.conn.ledger ==> Stored(c) == old(Stored(c))
      ensures old(Stored(a.phase.conn.ledger)) <= Stored(a.phase.conn.ledger)
    {
      var req := RequestOf(sources[a.sync], a);
      id := Call(req, tries, a);
      if id.Some? {
        ReceiveRuns(trace, a, req, id.value);
        trace := trace + [Receive(0)];
      } else {
        BreakRuns(trace, a);
        trace := trace + [Break(0)];
      }
    }

    /** The invoice, receipt and payment chain of one charge. */
    method SyncLedgixErp(s: SyncId, number: nat, conn: Connection, env: Environment) returns (o: Outcome)
      requires WellFormed(env) && s in sources && s in rows
      requires Mirrors(map[0 := Attempt(s, number, Posting(conn, InvoiceStep, 0, 0))])
      modifies this`ledgers, this`sent, this`trace
      ensures Mirrors(map[0 := Attempt(s, number, Ended(o))]) && old(trace) <= trace
      ensures o.Ok? <==> Answered in env.invoice && Answered in env.receipt && Answered in env.payment
      ensures o.Ok? ==> o.connection == Some(conn)
                        && o.invoice.Some? && o.receipt.Some? && o.payment.Some?
      ensures o.Ok? ==> ChargeMade(sources[s], Stored(conn.ledger), s, o)
      ensures forall c: nat :: c != conn.ledger ==> Stored(c) == old(Stored(c))
      ensures old(Stored(conn.ledger)) <= Stored(conn.ledger)
    {
      o := Failed;
      OnlyChargesPost(trace, Attempt(s, number, Posting(conn, InvoiceStep, 0, 0)));
      var a := Attempt(s, number, Posting(conn, InvoiceStep, 0, 0));
      var invoice := CallStep(a, env.invoice);
      if invoice.None? { return; }
      a := a.(phase := AfterAnswer(a.phase, invoice.value));
      var receipt := CallStep(a, env.receipt);
      if receipt.None? { return; }
      a := a.(phase := AfterAnswer(a.phase, receipt.value));
      var payment := CallStep(a, env.payment);
      if payment.None? { return; }
      o := Ok(Some(conn), invoice, receipt, payment);
      AnsweredIsCharged(trace, a.(phase := Ended(o)), conn);
    }

    /** The attempt loads its row and looks its provider and connection up. */
    ghost method Open(s: SyncId, connected: Option<Connection>)
      requires Mirrors(map[]) && rows.Keys == sources.Keys && s in rows
      modifies this`trace
      ensures old(trace) <= trace
      ensures Mirrors(map[0 := Attempt(s, rows[s].attemptCount + 1,
                                       AfterResolve(sources[s], connected))])
    {
      var a := Attempt(s, rows[s].attemptCount + 1, Loaded);
      BeginRuns(trace, s);
      trace := trace + [Begin(0, s)];
      ResolveRuns(trace, a, connected);
      trace := trace + [Resolve(0, connected)];
    }

    /** The transaction that records the outcome. */
    method Close(s: SyncId, number: nat, o: Outcome, now: int)
      requires Mirrors(map[0 := Attempt(s, number, Ended(o))]) && s in rows && s in sources
      modifies this`rows, this`trace
      ensures Mirrors(map[]) && old(trace) <= trace
      ensures rows == old(rows)[s := Recorded(old(rows)[s], number, o, now)]
    {
      RecordRuns(trace, Attempt(s, number, Ended(o)), now);
      trace := trace + [Record(0, now)];
      rows := rows[s := Recorded(rows[s], number, o, now)];
    }

    /**
     One attempt, from loading the row to recording the outcome. A missing row is ignored. The row
     becomes SUCCESS exactly when nothing the attempt needed failed; only the ledger it resolved to
     changes, and only by growing.
     */
    method AttemptSync(s: SyncId, env: Environment) returns (o: Option<Outcome>)
      requires Valid() && WellFormed(env)
      modifies this
      ensures Valid() && old(trace) <= trace && sources == old(sources) && order == old(order)
      ensures s !in old(rows) ==> o.None? && rows == old(rows) && ledgers == old(ledgers)
      ensures s in old(rows) ==>
                && o.Some?
                && rows == old(rows)[s := Recorded(old(rows)[s], old(rows)[s].attemptCount + 1, o.value,
                                                   env.now)]
                && (o.value.Ok? <==> Succeeds(sources[s], env))
                && s in rows && RowTells(old(rows)[s], rows[s], o.value, env.now)
      ensures forall c: nat :: old(Stored(c)) <= Stored(c)
      ensures forall c: nat :: (env.connected.Some? ==> env.connected.value.ledger != c) ==> Stored(c) == old(Stored(c))
    {
      hide Run, Recorded;
      if s !in rows {
        return None;
      }
      var src := sources[s];
      var number := rows[s].attemptCount + 1;
      Open(s, env.connected);
      var outcome;
      if src.provider.INTERNAL? {
        outcome := Ok(None, None, None, None);
      } else if env.connected.None? {
        outcome := Failed;
      } else if !IsCharge(src.kind) {
        outcome := Ok(env.connected, None, None, None);
      } else {
        outcome := SyncLedgixErp(s, number, env.connected.value, env);
      }
      RecordedTells(rows[s], outcome, env.now);
      Close(s, number, outcome, env.now);
      o := Some(outcome);
    }

    /** One attempt of a sweep that has dealt with the rows of `outcomes` so far. */
    method SweepOne(s: SyncId, env: Environment, ghost was: map<SyncId, Row>,
                    ghost outcomes: map<SyncId, Outcome>, ghost envs: SyncId -> Environment)
      returns (o: Outcome)
      requires Valid() && WellFormed(env) && envs(s) == env && s in rows && s !in outcomes
      requires Swept(sources, was, rows, outcomes, envs)
      modifies this
      ensures Valid() && old(trace) <= trace && sources == old(sources) && order == old(order)
      ensures Swept(sources, was, rows, outcomes[s := o], envs) && rows.Keys == old(rows.Keys)
    {
      hide Run, Recorded, Succeeds;
      ghost var before := rows;
      var recorded := AttemptSync(s, env);
      o := recorded.value;
      SweptOneMore(sources, was, before, rows, outcomes, envs, s, o);
    }

    /**
     One sweep: each of the first twenty due rows by creation is attempted once, in that order, and
     no other row changes. Attempts of one sweep end after it has looked for due rows.
     */
    method ProcessDue(now: int, envs: SyncId -> Environment) returns (outcomes: map<SyncId, Outcome>)
      requires Valid()
      requires forall s :: WellFormed(envs(s)) && envs(s).now >= now
      modifies this
      ensures Valid() && old(trace) <= trace
      ensures sources == old(sources) && order == old(order)
      ensures outcomes.Keys == Elements(Batch(order, old(rows), now))
      ensures Swept(sources, old(rows), rows, outcomes, envs)
      ensures forall s :: s in outcomes ==> Due(old(rows)[s], now)
    {
      ghost var was := rows;
      var due := Batch(order, rows, now);
      BatchIsDistinct(order, rows, now);
      hide Run, Recorded, Swept, Due, Batch, Distinct, Succeeds;
      outcomes := map[];
      NothingSwept(sources, was, envs);
      var i := 0;
      while i < |due|
        invariant 0 <= i <= |due|
        invariant Valid() && old(trace) <= trace
        invariant sources == old(sources) && order == old(order)
        invariant rows.Keys == was.Keys
        invariant outcomes.Keys == Elements(due[..i])
        invariant Swept(sources, was, rows, outcomes, envs)
      {
        OneMoreElement(due, i);
        var o := SweepOne(due[i], envs(due[i]), was, outcomes, envs);
        outcomes := outcomes[due[i] := o];
        i := i + 1;
      }
      assert due[..i] == due;
    }

    /** A manual retry by the organization's staff; `organizationId` absent is the platform admin's. */
    method Retry(organizationId: Option<string>, s: SyncId, now: int) returns (r: RetryResult)
      requires Valid()
      modifies this`rows, this`trace
      ensures Valid() && old(trace) <= trace
      ensures r == if s !in old(rows)
                      || (organizationId.Some? && organizationId.value != sources[s].organizationId)
                   then NotFound
                   else if old(rows)[s].status in {FAILED, DEAD_LETTER} then Retried else BadRequest
      ensures r.Retried? ==>
                && rows == old(rows)[s := Rearmed(old(rows)[s], old(rows)[s].error.Some?, now)]
                && rows[s] == old(rows)[s].(status := PENDING, nextAttemptAt := Some(now),
                                            rearmed := old(rows)[s].rearmed + 1, error := rows[s].error)
                && (rows[s].error == if old(rows)[s].error.Some? then Some(true) else None)
      ensures !r.Retried? ==> rows == old(rows)
    {
      if s !in rows || (organizationId.Some? && organizationId.value != sources[s].organizationId) {
        return NotFound;
      }
      if !Retryable(rows[s]) {
        return BadRequest;
      }
      RetryRuns(trace, s, now);
      trace := trace + [ReadForRetry(0, s), WriteRetry(0, now)];
      rows := rows[s := Rearmed(rows[s], rows[s].error.Some?, now)];
      r := Retried;
    }

    /**
     The organization's retry with the attempt it starts at once, which looks at neither the status nor
     the due time of the row it then finds.
     */
    method RetryAtOnce(organizationId: string, s: SyncId, now: int, env: Environment)
      returns (r: RetryResult, o: Option<Outcome>)
      requires Valid() && WellFormed(env)
      modifies this
      ensures Valid() && old(trace) <= trace
      ensures r == if s !in old(rows) || organizationId != old(sources)[s].organizationId then NotFound
                   else if old(rows)[s].status in {FAILED, DEAD_LETTER} then Retried else BadRequest
      ensures !r.Retried? ==> o.None? && rows == old(rows)
      ensures r.Retried? ==>
        var was := old(rows)[s];
        var armed := was.(status := PENDING, nextAttemptAt := Some(now), rearmed := was.rearmed + 1,
                          error := if was.error.Some? then Some(true) else None);
        && o.Some? && (o.value.Ok? <==> Succeeds(old(sources)[s], env))
        && rows == old(rows)[s := Recorded(armed, armed.attemptCount + 1, o.value, env.now)]
        && s in rows && RowTells(armed, rows[s], o.value, env.now)
    {
      hide Run, Recorded, Rearmed, Due, Mirrors;
      r := Retry(Some(organizationId), s, now);
      if r.Retried? {
        o := AttemptSync(s, env);
      } else {
        o := None;
      }
    }
  }
}
