/**
 Any number of `attemptSync` calls, overlapping freely, against any number of ERP ledgers over a
 network that may lose, delay or repeat requests and lose answers. Each database statement, each
 send, each delivery and each answer is one step; a step that is not enabled changes nothing.
 */
module SyncChain {
  import opened Common
  import opened ErpLedger
  import opened SyncRow

  /** A request on its way to a ledger. */
  datatype Request = Request(ledger: nat, entry: Entry)

  datatype Phase =
    | Loaded
    | Posting(conn: Connection, step: Step, invoice: nat, receipt: nat)
    | Ended(outcome: Outcome)

  datatype Attempt = Attempt(sync: SyncId, number: nat, phase: Phase)

  /** A manual retry that has read its row and not yet written it. */
  datatype PendingRetry = PendingRetry(sync: SyncId, hadError: bool)

  datatype State = State(sources: map<SyncId, Source>, rows: map<SyncId, Row>,
                         attempts: map<nat, Attempt>, retries: map<nat, PendingRetry>,
                         ledgers: map<nat, Ledger>, sent: set<Request>)

  datatype Event =
    | Create(s: SyncId, src: Source)
    | Begin(pid: nat, s: SyncId)
    | Resolve(pid: nat, connected: Option<Connection>)
    | Send(pid: nat)
    | Deliver(req: Request)
    | Receive(pid: nat)
    | Break(pid: nat)
    | Record(pid: nat, now: int)
    | ReadForRetry(rid: nat, s: SyncId)
    | WriteRetry(rid: nat, now: int)

  const Init := State(map[], map[], map[], map[], map[], {})

  function LedgerOf(st: State, ledger: nat): Ledger {
    if ledger in st.ledgers then st.ledgers[ledger] else []
  }

  /** The request a posting attempt makes. */
  function RequestOf(src: Source, a: Attempt): Request
    requires a.phase.Posting?
  {
    var parent := if a.phase.step.ReceiptStep? then a.phase.invoice else a.phase.receipt;
    Request(a.phase.conn.ledger,
            Entry(KeyFor(a.sync, a.phase.step), a.sync, DocFor(src, a.phase.step, parent)))
  }

  /** The provider lookup at the start of an attempt. */
  function AfterResolve(src: Source, connected: Option<Connection>): Phase {
    if src.provider.INTERNAL? then Ended(Ok(None, None, None, None))
    else if connected.None? then Ended(Failed)
    else if !IsCharge(src.kind) then Ended(Ok(connected, None, None, None))
    else Posting(connected.value, InvoiceStep, 0, 0)
  }

  /** Document `id` answers the current call. */
  function AfterAnswer(ph: Phase, id: nat): Phase
    requires ph.Posting?
  {
    match ph.step
    case InvoiceStep => ph.(step := ReceiptStep, invoice := id)
    case ReceiptStep => ph.(step := PaymentStep, receipt := id)
    case PaymentStep => Ended(Ok(Some(ph.conn), Some(ph.invoice), Some(ph.receipt), Some(id)))
  }

  function WithPhase(st: State, pid: nat, ph: Phase): State
    requires pid in st.attempts
  {
    st.(attempts := st.attempts[pid := st.attempts[pid].(phase := ph)])
  }

  predicate Tracked(st: State, a: Attempt) {
    a.sync in st.sources && a.sync in st.rows
  }

  predicate Enabled(st: State, e: Event) {
    match e
    case Create(s, src) => s !in st.sources && s !in st.rows
    case Begin(pid, s) => pid !in st.attempts && s in st.rows
    case Resolve(pid, _) =>
      pid in st.attempts && st.attempts[pid].phase.Loaded? && Tracked(st, st.attempts[pid])
    case Send(pid) =>
      pid in st.attempts && st.attempts[pid].phase.Posting? && Tracked(st, st.attempts[pid])
    case Deliver(req) => req in st.sent
    case Receive(pid) =>
      && pid in st.attempts && st.attempts[pid].phase.Posting? && Tracked(st, st.attempts[pid])
      && var req := RequestOf(st.sources[st.attempts[pid].sync], st.attempts[pid]);
      req in st.sent && Find(LedgerOf(st, req.ledger), req.entry.key).Some?
    case Break(pid) => pid in st.attempts && !st.attempts[pid].phase.Ended?
    case Record(pid, _) =>
      pid in st.attempts && st.attempts[pid].phase.Ended? && Tracked(st, st.attempts[pid])
    case ReadForRetry(rid, s) => rid !in st.retries && s in st.rows && Retryable(st.rows[s])
    case WriteRetry(rid, _) => rid in st.retries && st.retries[rid].sync in st.rows
  }

  function Do(st: State, e: Event): State
    requires Enabled(st, e)
  {
    match e
    case Create(s, src) => st.(sources := st.sources[s := src], rows := st.rows[s := NewRow])
    case Begin(pid, s) =>
      st.(attempts := st.attempts[pid := Attempt(s, st.rows[s].attemptCount + 1, Loaded)])
    case Resolve(pid, connected) =>
      WithPhase(st, pid, AfterResolve(st.sources[st.attempts[pid].sync], connected))
    case Send(pid) =>
      st.(sent := st.sent + {RequestOf(st.sources[st.attempts[pid].sync], st.attempts[pid])})
    case Deliver(req) =>
      st.(ledgers := st.ledgers[req.ledger := Post(LedgerOf(st, req.ledger), req.entry)])
    case Receive(pid) =>
      var a := st.attempts[pid];
      var req := RequestOf(st.sources[a.sync], a);
      WithPhase(st, pid, AfterAnswer(a.phase, Find(LedgerOf(st, req.ledger), req.entry.key).value))
    case Break(pid) => WithPhase(st, pid, Ended(Failed))
    case Record(pid, now) =>
      var a := st.attempts[pid];
      st.(rows := st.rows[a.sync := Recorded(st.rows[a.sync], a.number, a.phase.outcome, now)],
          attempts := st.attempts - {pid})
    case ReadForRetry(rid, s) =>
      st.(retries := st.retries[rid := PendingRetry(s, st.rows[s].error.Some?)])
    case WriteRetry(rid, now) =>
      var p := st.retries[rid];
      st.(rows := st.rows[p.sync := Rearmed(st.rows[p.sync], p.hadError, now)],
          retries := st.retries - {rid})
  }

  function Next(st: State, e: Event): State {
    if Enabled(st, e) then Do(st, e) else st
  }

  /** The state after a run, an arbitrary sequence of events. */
  function Run(st: State, es: seq<Event>): State {
    if es == [] then st else Next(Run(st, es[..|es| - 1]), es[|es| - 1])
  }

  // ---- what every step keeps ----

  /** The entry is one its sync's own event calls for, hung under that sync's own documents in `l`. */
  ghost predicate EntryOk(sources: map<SyncId, Source>, l: Ledger, e: Entry) {
    && e.owner in sources && NeedsCharge(sources[e.owner])
    && e.key == KeyFor(e.owner, StepOf(e.doc))
    && match e.doc
       case Invoice(_, _, _, _, _, _) => e.doc == DocFor(sources[e.owner], InvoiceStep, 0)
       case Receipt(i, _, _) =>
         e.doc == DocFor(sources[e.owner], ReceiptStep, i) && PostedAt(l, i, e.owner, InvoiceStep)
       case Payment(r, _, _) =>
         e.doc == DocFor(sources[e.owner], PaymentStep, r) && PostedAt(l, r, e.owner, ReceiptStep)
  }

  ghost predicate LedgerOk(sources: map<SyncId, Source>, l: Ledger) {
    && (forall i :: 0 <= i < |l| ==> EntryOk(sources, l, l[i]))
    && (forall i, j :: 0 <= i < j < |l| ==> l[i].key != l[j].key)
  }

  ghost predicate PhaseOk(st: State, s: SyncId, ph: Phase)
    requires s in st.sources
  {
    match ph
    case Loaded => true
    case Posting(c, k, i, r) =>
      && NeedsCharge(st.sources[s])
      && (k != InvoiceStep ==> PostedAt(LedgerOf(st, c.ledger), i, s, InvoiceStep))
      && (k == PaymentStep ==> PostedAt(LedgerOf(st, c.ledger), r, s, ReceiptStep))
    case Ended(Failed) => true
    case Ended(Ok(c, i, r, p)) =>
      NeedsCharge(st.sources[s]) ==>
        c.Some? && i.Some? && r.Some? && p.Some?
        && ChainAt(LedgerOf(st, c.value.ledger), s, i.value, r.value, p.value)
  }

  /** A charge row that says SUCCESS names a complete chain in the ledger its connection led to. */
  ghost predicate RowOk(st: State, s: SyncId)
    requires s in st.sources && s in st.rows
  {
    var r := st.rows[s];
    && (r.status == SUCCESS && NeedsCharge(st.sources[s]) ==>
          r.connection.Some? && r.invoice.Some? && r.receipt.Some? && r.payment.Some?
          && ChainAt(LedgerOf(st, r.connection.value.ledger), s, r.invoice.value, r.receipt.value,
                     r.payment.value))
    && (r.status == RETRYING ==> 1 <= r.attemptCount < MAX_ATTEMPTS)
    && (r.status == DEAD_LETTER ==> r.attemptCount >= MAX_ATTEMPTS && r.error == Some(false))
  }

  ghost predicate LedgersOk(st: State) {
    forall c :: c in st.ledgers ==> LedgerOk(st.sources, st.ledgers[c])
  }

  ghost predicate SentOk(st: State) {
    forall q :: q in st.sent ==> EntryOk(st.sources, LedgerOf(st, q.ledger), q.entry)
  }

  ghost predicate AttemptsOk(st: State) {
    forall p :: p in st.attempts ==>
      && st.attempts[p].sync in st.sources
      && st.attempts[p].number >= 1
      && PhaseOk(st, st.attempts[p].sync, st.attempts[p].phase)
  }

  ghost predicate RowsOk(st: State) {
    && st.rows.Keys == st.sources.Keys
    && forall s :: s in st.rows ==> RowOk(st, s)
  }

  ghost predicate Inv(st: State) {
    LedgersOk(st) && SentOk(st) && AttemptsOk(st) && RowsOk(st)
  }

  /** Nothing already true of a ledger is lost when it grows or when syncs are added. */
  lemma EntryOkGrows(sources: map<SyncId, Source>, sources': map<SyncId, Source>,
                     l: Ledger, l': Ledger, e: Entry)
    requires EntryOk(sources, l, e) && l <= l'
    requires forall s :: s in sources ==> s in sources' && sources'[s] == sources[s]
    ensures EntryOk(sources', l', e)
  {
  }

  lemma PostKeepsLedger(sources: map<SyncId, Source>, l: Ledger, e: Entry)
    requires LedgerOk(sources, l) && EntryOk(sources, l, e)
    ensures LedgerOk(sources, Post(l, e))
  {
    var l' := Post(l, e);
    forall i | 0 <= i < |l'| ensures EntryOk(sources, l', l'[i]) {
      EntryOkGrows(sources, sources, l, l', l'[i]);
    }
  }

  /** The key lookup answers a sync's call with that sync's own document for that call. */
  lemma AnswerIsOwn(sources: map<SyncId, Source>, l: Ledger, s: SyncId, k: Step)
    requires LedgerOk(sources, l) && Find(l, KeyFor(s, k)).Some?
    ensures PostedAt(l, Find(l, KeyFor(s, k)).value, s, k)
  {
    var i := Find(l, KeyFor(s, k)).value;
    KeysIdentifyCalls(l[i].owner, StepOf(l[i].doc), s, k);
  }

  /** A sync has at most one document of each kind. */
  lemma OnePerStep(sources: map<SyncId, Source>, l: Ledger, i: nat, j: nat, s: SyncId, k: Step)
    requires LedgerOk(sources, l) && PostedAt(l, i, s, k) && PostedAt(l, j, s, k)
    ensures i == j
  {
    assert l[i].key == KeyFor(s, k) == l[j].key;
  }

  lemma PhaseOkGrows(st: State, st': State, s: SyncId, ph: Phase)
    requires s in st.sources && PhaseOk(st, s, ph)
    requires s in st'.sources && st'.sources[s] == st.sources[s]
    requires forall c :: LedgerOf(st, c) <= LedgerOf(st', c)
    ensures PhaseOk(st', s, ph)
  {
    if ph.Posting? {
      assert LedgerOf(st, ph.conn.ledger) <= LedgerOf(st', ph.conn.ledger);
    } else if ph.Ended? && ph.outcome.Ok? && ph.outcome.connection.Some? {
      assert LedgerOf(st, ph.outcome.connection.value.ledger) <= LedgerOf(st', ph.outcome.connection.value.ledger);
    }
  }

  lemma RowOkGrows(st: State, st': State, s: SyncId)
    requires s in st.sources && s in st.rows && RowOk(st, s)
    requires s in st'.sources && s in st'.rows
    requires st'.sources[s] == st.sources[s] && st'.rows[s] == st.rows[s]
    requires forall c :: LedgerOf(st, c) <= LedgerOf(st', c)
    ensures RowOk(st', s)
  {
    var r := st.rows[s];
    if r.connection.Some? {
      assert LedgerOf(st, r.connection.value.ledger) <= LedgerOf(st', r.connection.value.ledger);
    }
  }

  /** Growth of sources and ledgers alone keeps everything about untouched rows and attempts. */
  lemma GrowthKeepsInv(st: State, st': State)
    requires Inv(st)
    requires st'.rows.Keys == st'.sources.Keys
    requires forall s :: s in st.sources ==> s in st'.sources && st'.sources[s] == st.sources[s]
    requires forall c :: LedgerOf(st, c) <= LedgerOf(st', c)
    ensures forall q :: q in st.sent ==> EntryOk(st'.sources, LedgerOf(st', q.ledger), q.entry)
    ensures forall p :: p in st.attempts ==>
                          st.attempts[p].sync in st'.sources
                          && PhaseOk(st', st.attempts[p].sync, st.attempts[p].phase)
    ensures forall s :: s in st.rows && s in st'.rows && st'.rows[s] == st.rows[s] ==> RowOk(st', s)
  {
    forall q | q in st.sent ensures EntryOk(st'.sources, LedgerOf(st', q.ledger), q.entry) {
      EntryOkGrows(st.sources, st'.sources, LedgerOf(st, q.ledger), LedgerOf(st', q.ledger), q.entry);
    }
    forall p | p in st.attempts
      ensures PhaseOk(st', st.attempts[p].sync, st.attempts[p].phase)
    {
      PhaseOkGrows(st, st', st.attempts[p].sync, st.attempts[p].phase);
    }
    forall s | s in st.rows && s in st'.rows && st'.rows[s] == st.rows[s] ensures RowOk(st', s) {
      RowOkGrows(st, st', s);
    }
  }

  lemma CreateKeepsInv(st: State, e: Event)
    requires Inv(st) && e.Create? && Enabled(st, e)
    ensures Inv(Do(st, e))
  {
    var st' := Do(st, e);
    GrowthKeepsInv(st, st');
    forall c | c in st'.ledgers ensures LedgerOk(st'.sources, st'.ledgers[c]) {
      var l := st.ledgers[c];
      forall i | 0 <= i < |l| ensures EntryOk(st'.sources, l, l[i]) {
        EntryOkGrows(st.sources, st'.sources, l, l, l[i]);
      }
    }
  }

  /** One ledger grows to `l`. */
  lemma LedgerGrowthKeepsInv(st: State, ledger: nat, l: Ledger)
    requires Inv(st) && LedgerOf(st, ledger) <= l && LedgerOk(st.sources, l)
    ensures Inv(st.(ledgers := st.ledgers[ledger := l]))
  {
    var st' := st.(ledgers := st.ledgers[ledger := l]);
    hide EntryOk, RowOk, PhaseOk, LedgerOk;
    assert forall c :: LedgerOf(st, c) <= LedgerOf(st', c);
    GrowthKeepsInv(st, st');
    hide LedgerOf;
  }

  lemma DeliverKeepsInv(st: State, e: Event)
    requires Inv(st) && e.Deliver? && Enabled(st, e)
    ensures Inv(Do(st, e))
  {
    var l := LedgerOf(st, e.req.ledger);
    assert LedgerOk(st.sources, l) && EntryOk(st.sources, l, e.req.entry);
    PostKeepsLedger(st.sources, l, e.req.entry);
    hide Find, Post, EntryOk, RowOk, PhaseOk, LedgerOk, Inv;
    LedgerGrowthKeepsInv(st, e.req.ledger, Post(l, e.req.entry));
  }

  /** Only the phase of one attempt changes. */
  lemma PhaseChangeKeepsInv(st: State, pid: nat, ph: Phase)
    requires Inv(st) && pid in st.attempts && PhaseOk(st, st.attempts[pid].sync, ph)
    ensures Inv(WithPhase(st, pid, ph))
  {
    var st' := WithPhase(st, pid, ph);
    PhaseOkGrows(st, st', st.attempts[pid].sync, ph);
    GrowthKeepsInv(st, st');
  }

  lemma ReceiveKeepsInv(st: State, e: Event)
    requires Inv(st) && e.Receive? && Enabled(st, e)
    ensures Inv(Do(st, e))
  {
    var a := st.attempts[e.pid];
    var req := RequestOf(st.sources[a.sync], a);
    var l := LedgerOf(st, req.ledger);
    AnswerIsOwn(st.sources, l, a.sync, a.phase.step);
    var id := Find(l, req.entry.key).value;
    if a.phase.step == PaymentStep {
      OnePerStep(st.sources, l, l[id].doc.receiptId, a.phase.receipt, a.sync, ReceiptStep);
      OnePerStep(st.sources, l, l[a.phase.receipt].doc.invoiceId, a.phase.invoice, a.sync,
                 InvoiceStep);
    }
    PhaseChangeKeepsInv(st, e.pid, AfterAnswer(a.phase, id));
  }

  /** Only one row changes, and the attempts and retries of others. */
  lemma RowChangeKeepsInv(st: State, st': State, s: SyncId)
    requires Inv(st) && s in st.rows
    requires st' == st.(rows := st'.rows, attempts := st'.attempts, retries := st'.retries)
    requires st'.rows.Keys == st.rows.Keys && st'.attempts.Keys <= st.attempts.Keys
    requires forall p :: p in st'.attempts ==> st'.attempts[p] == st.attempts[p]
    requires forall t :: t in st.rows && t != s ==> st'.rows[t] == st.rows[t]
    requires RowOk(st', s)
    ensures Inv(st')
  {
    GrowthKeepsInv(st, st');
  }

  lemma BeginKeepsInv(st: State, e: Event)
    requires Inv(st) && e.Begin? && Enabled(st, e)
    ensures Inv(Do(st, e))
  {
    GrowthKeepsInv(st, Do(st, e));
  }

  /** Every request an attempt sends is one the ledger may store. */
  lemma RequestIsOk(st: State, a: Attempt)
    requires a.phase.Posting? && a.sync in st.sources && PhaseOk(st, a.sync, a.phase)
    ensures var req := RequestOf(st.sources[a.sync], a);
            EntryOk(st.sources, LedgerOf(st, req.ledger), req.entry)
  {
    hide NeedsCharge, KeyFor;
  }

  lemma SentGrowthKeepsInv(st: State, req: Request)
    requires Inv(st) && EntryOk(st.sources, LedgerOf(st, req.ledger), req.entry)
    ensures Inv(st.(sent := st.sent + {req}))
  {
    hide EntryOk, RowOk, PhaseOk, LedgerOk;
    GrowthKeepsInv(st, st.(sent := st.sent + {req}));
    hide LedgerOf;
  }

  lemma SendKeepsInv(st: State, e: Event)
    requires Inv(st) && e.Send? && Enabled(st, e)
    ensures Inv(Do(st, e))
  {
    var a := st.attempts[e.pid];
    RequestIsOk(st, a);
    hide EntryOk, RowOk, PhaseOk, LedgerOk, RequestOf, Inv;
    SentGrowthKeepsInv(st, RequestOf(st.sources[a.sync], a));
  }

  lemma PhaseStepKeepsInv(st: State, e: Event)
    requires Inv(st) && (e.Resolve? || e.Break?) && Enabled(st, e)
    ensures Inv(Do(st, e))
  {
    match e
    case Resolve(pid, connected) =>
      PhaseChangeKeepsInv(st, pid, AfterResolve(st.sources[st.attempts[pid].sync], connected));
    case Break(pid) => PhaseChangeKeepsInv(st, pid, Ended(Failed));
  }

  lemma RecordKeepsInv(st: State, e: Event)
    requires Inv(st) && e.Record? && Enabled(st, e)
    ensures Inv(Do(st, e))
  {
    var a := st.attempts[e.pid];
    assert PhaseOk(st, a.sync, a.phase);
    RowChangeKeepsInv(st, Do(st, e), a.sync);
  }

  lemma RetryKeepsInv(st: State, e: Event)
    requires Inv(st) && (e.ReadForRetry? || e.WriteRetry?) && Enabled(st, e)
    ensures Inv(Do(st, e))
  {
    match e
    case ReadForRetry(_, s) => RowChangeKeepsInv(st, Do(st, e), s);
    case WriteRetry(rid, _) => RowChangeKeepsInv(st, Do(st, e), st.retries[rid].sync);
  }

  lemma NextKeepsInv(st: State, e: Event)
    requires Inv(st)
    ensures Inv(Next(st, e))
  {
    if Enabled(st, e) {
      match e
      case Create(_, _) => CreateKeepsInv(st, e);
      case Deliver(_) => DeliverKeepsInv(st, e);
      case Receive(_) => ReceiveKeepsInv(st, e);
      case Record(_, _) => RecordKeepsInv(st, e);
      case ReadForRetry(_, _) => RetryKeepsInv(st, e);
      case WriteRetry(_, _) => RetryKeepsInv(st, e);
      case Begin(_, _) => BeginKeepsInv(st, e);
      case Send(_) => SendKeepsInv(st, e);
      case _ => PhaseStepKeepsInv(st, e);
    }
  }

  lemma {:induction false} RunKeepsInv(es: seq<Event>)
    ensures Inv(Run(Init, es))
  {
    if es != [] {
      RunKeepsInv(es[..|es| - 1]);
      NextKeepsInv(Run(Init, es[..|es| - 1]), es[|es| - 1]);
    }
  }

  // ---- what holds after every run ----

  /** An optional field as a document shows it: what the event says, or else the default. */
  predicate Shows<T(==)>(shown: T, field: Option<T>, default: T) {
    (field.Some? ==> shown == field.value) && (field.None? ==> shown == default)
  }

  /** The invoice is for what the event says, charged to the customer it names first. */
  predicate InvoiceBills(src: Source, d: Document) {
    && d.Invoice?
    && Shows(d.amountMinor, src.fields.amountMinor, 0) && Shows(d.currency, src.fields.currency, "USD")
    && Shows(d.taxMinor, src.fields.taxMinor, 0) && Shows(d.discountMinor, src.fields.discountMinor, 0)
    && d.description == src.fields.description
    && (src.fields.customerReference.Some? ==> d.customer == src.fields.customerReference.value)
    && (src.fields.customerReference.None? ==> Shows(d.customer, src.customerId, src.organizationId))
  }

  predicate ReceiptBills(src: Source, d: Document) {
    && d.Receipt?
    && Shows(d.amountMinor, src.fields.amountMinor, 0) && Shows(d.currency, src.fields.currency, "USD")
  }

  predicate PaymentBills(src: Source, d: Document) {
    && d.Payment?
    && Shows(d.payMethod, src.fields.payMethod, "unknown") && d.reference == src.fields.reference
  }

  /** Every document the engine asks for bills its event. */
  lemma DocumentsBill(src: Source, parent: nat)
    ensures InvoiceBills(src, DocFor(src, InvoiceStep, parent))
    ensures ReceiptBills(src, DocFor(src, ReceiptStep, parent))
    ensures PaymentBills(src, DocFor(src, PaymentStep, parent))
  {
  }

  /**
   The exactly-once effect. After any run whatever, in every ledger, a sync has at most one invoice,
   one receipt and one payment; each bills the sync's own event, field by field; the receipt is on
   that invoice and the payment on that receipt; and only charge events ever reach the ERP.
   */
  lemma ExactlyOnceEffect(es: seq<Event>, ledger: nat, i: nat, j: nat)
    requires var l := LedgerOf(Run(Init, es), ledger); i < |l| && j < |l|
    ensures var st := Run(Init, es);
            var l := LedgerOf(st, ledger);
            && (l[i].owner == l[j].owner && StepOf(l[i].doc) == StepOf(l[j].doc) ==> i == j)
            && l[i].owner in st.sources && st.sources[l[i].owner].provider == LEDGIX_ERP
            && st.sources[l[i].owner].kind in {SUBSCRIPTION_ACTIVATED, SUBSCRIPTION_RENEWED, PAYMENT_SUCCEEDED}
            && (l[i].doc.Invoice? ==> InvoiceBills(st.sources[l[i].owner], l[i].doc))
            && (l[i].doc.Receipt? ==>
                  && ReceiptBills(st.sources[l[i].owner], l[i].doc)
                  && PostedAt(l, l[i].doc.invoiceId, l[i].owner, InvoiceStep))
            && (l[i].doc.Payment? ==>
                  && PaymentBills(st.sources[l[i].owner], l[i].doc)
                  && PostedAt(l, l[i].doc.receiptId, l[i].owner, ReceiptStep))
  {
    RunKeepsInv(es);
    var st := Run(Init, es);
    var l := LedgerOf(st, ledger);
    assert EntryOk(st.sources, l, l[i]);
    DocumentsBill(st.sources[l[i].owner],
                  if l[i].doc.Receipt? then l[i].doc.invoiceId else if l[i].doc.Payment? then l[i].doc.receiptId else 0);
    hide DocFor, InvoiceBills, ReceiptBills, PaymentBills;
    if l[i].owner == l[j].owner && StepOf(l[i].doc) == StepOf(l[j].doc) {
      OnePerStep(st.sources, l, i, j, l[i].owner, StepOf(l[i].doc));
    }
  }

  /**
   A charge sync that says SUCCESS names the whole of its chain: the three ids it stores are the only
   invoice, receipt and payment it has in the ledger its connection led to when the attempt read it.
   Overlapping attempts do not break this.
   */
  lemma SuccessNamesTheChain(es: seq<Event>, s: SyncId)
    requires var st := Run(Init, es);
             s in st.rows && s in st.sources
             && st.rows[s].status == SUCCESS && st.sources[s].provider == LEDGIX_ERP
             && st.sources[s].kind in {SUBSCRIPTION_ACTIVATED, SUBSCRIPTION_RENEWED, PAYMENT_SUCCEEDED}
    ensures var st := Run(Init, es);
            var r := st.rows[s];
            && r.connection.Some? && r.invoice.Some? && r.receipt.Some? && r.payment.Some?
            && var l := LedgerOf(st, r.connection.value.ledger);
            && ChainAt(l, s, r.invoice.value, r.receipt.value, r.payment.value)
            && forall d :: 0 <= d < |l| && l[d].owner == s ==>
                             d in [r.invoice.value, r.receipt.value, r.payment.value]
  {
    RunKeepsInv(es);
    var st := Run(Init, es);
    var r := st.rows[s];
    assert RowOk(st, s);
    var l := LedgerOf(st, r.connection.value.ledger);
    forall d | 0 <= d < |l| && l[d].owner == s
      ensures d in [r.invoice.value, r.receipt.value, r.payment.value]
    {
      var own := match StepOf(l[d].doc)
                 case InvoiceStep => r.invoice.value
                 case ReceiptStep => r.receipt.value
                 case PaymentStep => r.payment.value;
      OnePerStep(st.sources, l, d, own, s, StepOf(l[d].doc));
    }
  }

  /**
   What such a sync billed: the invoice is for the event's amount and currency, with its tax, discount and
   description, and for its customer reference or else its customer or organization; the receipt is for the
   same amount and currency; and the payment is by the event's method, with its reference.
   */
  lemma SuccessBillsTheEvent(es: seq<Event>, s: SyncId)
    requires var st := Run(Init, es);
             s in st.rows && s in st.sources
             && st.rows[s].status == SUCCESS && st.sources[s].provider == LEDGIX_ERP
             && st.sources[s].kind in {SUBSCRIPTION_ACTIVATED, SUBSCRIPTION_RENEWED, PAYMENT_SUCCEEDED}
    ensures var st := Run(Init, es);
            var (r, src) := (st.rows[s], st.sources[s]);
            && r.connection.Some? && r.invoice.Some? && r.receipt.Some? && r.payment.Some?
            && var l := LedgerOf(st, r.connection.value.ledger);
            && ChainAt(l, s, r.invoice.value, r.receipt.value, r.payment.value)
            && InvoiceBills(src, l[r.invoice.value].doc)
            && ReceiptBills(src, l[r.receipt.value].doc)
            && PaymentBills(src, l[r.payment.value].doc)
  {
    SuccessNamesTheChain(es, s);
    assert NeedsCharge(Run(Init, es).sources[s]);
    var r := Run(Init, es).rows[s];
    hide Run, InvoiceBills, ReceiptBills, PaymentBills, NeedsCharge;
    ExactlyOnceEffect(es, r.connection.value.ledger, r.invoice.value, r.invoice.value);
    ExactlyOnceEffect(es, r.connection.value.ledger, r.receipt.value, r.receipt.value);
    ExactlyOnceEffect(es, r.connection.value.ledger, r.payment.value, r.payment.value);
  }

  /** What the statuses promise even when attempts and retries overlap. */
  lemma StatusesUnderOverlap(es: seq<Event>, s: SyncId)
    requires s in Run(Init, es).rows
    ensures var r := Run(Init, es).rows[s];
            && (r.status == RETRYING ==> 1 <= r.attemptCount <= 4)
            && (r.status == DEAD_LETTER ==> r.attemptCount >= 5 && r.error == Some(false))
  {
    RunKeepsInv(es);
  }

  // ---- one ledger, or several ----

  /** Attempts resolve to connections of `conns` only. */
  predicate OnlyConnections(es: seq<Event>, conns: set<Connection>) {
    forall i :: 0 <= i < |es| && es[i].Resolve? && es[i].connected.Some? ==> es[i].connected.value in conns
  }

  function LedgersOf(conns: set<Connection>): set<nat> {
    set c | c in conns :: c.ledger
  }

  ghost predicate OutcomeOn(o: Outcome, conns: set<Connection>) {
    o.Ok? && o.connection.Some? ==> o.connection.value in conns
  }

  ghost predicate PhaseOn(ph: Phase, conns: set<Connection>) {
    && (ph.Posting? ==> ph.conn in conns)
    && (ph.Ended? ==> OutcomeOn(ph.outcome, conns))
  }

  ghost predicate AllOn(st: State, conns: set<Connection>) {
    && st.ledgers.Keys <= LedgersOf(conns)
    && (forall q :: q in st.sent ==> q.ledger in LedgersOf(conns))
    && (forall p :: p in st.attempts ==> PhaseOn(st.attempts[p].phase, conns))
    && (forall s :: s in st.rows && st.rows[s].connection.Some? ==> st.rows[s].connection.value in conns)
  }

  lemma NextKeepsAllOn(st: State, e: Event, conns: set<Connection>)
    requires AllOn(st, conns)
    requires e.Resolve? && e.connected.Some? ==> e.connected.value in conns
    ensures AllOn(Next(st, e), conns)
  {
    hide Find, Post, DocFor, KeyFor, IsCharge, Retryable;
    if Enabled(st, e) {
      match e
      case Deliver(req) => assert Do(st, e).ledgers.Keys == st.ledgers.Keys + {req.ledger};
      case Send(_) => assert Do(st, e).attempts == st.attempts;
      case Resolve(_, _) => assert Do(st, e).sent == st.sent;
      case _ =>
    }
  }

  /** No ledger is ever written but those that attempts resolve to, and rows store such connections only. */
  lemma {:induction false} OnlyTheirLedgers(es: seq<Event>, conns: set<Connection>)
    requires OnlyConnections(es, conns)
    ensures AllOn(Run(Init, es), conns)
  {
    if es != [] {
      var before := es[..|es| - 1];
      assert forall i :: 0 <= i < |before| ==> before[i] == es[i];
      OnlyTheirLedgers(before, conns);
      hide Next, AllOn;
      NextKeepsAllOn(Run(Init, before), es[|es| - 1], conns);
    }
  }

  /** As long as the connections that attempts read lead to one ledger no other is ever written. */
  lemma OneAddressOneLedger(es: seq<Event>, conns: set<Connection>, ledger: nat)
    requires OnlyConnections(es, conns) && forall c :: c in conns ==> c.ledger == ledger
    ensures forall l :: l in Run(Init, es).ledgers ==> l == ledger
  {
    OnlyTheirLedgers(es, conns);
  }

  lemma Extend(es: seq<Event>, e: Event)
    ensures Run(Init, es + [e]) == Next(Run(Init, es), e)
  {
    assert (es + [e])[..|es|] == es;
  }

  /** A new attempt of a charge sync that resolves to `conn`. */
  function Opening(pid: nat, s: SyncId, conn: Connection): seq<Event> {
    [Begin(pid, s), Resolve(pid, Some(conn))]
  }

  /** One request of that attempt gets through to the ledger. */
  function Landing(pid: nat, s: SyncId, src: Source, conn: Connection): seq<Event> {
    [Send(pid), Deliver(Request(conn.ledger, Entry(KeyFor(s, InvoiceStep), s, DocFor(src, InvoiceStep, 0))))]
  }

  function OpenedState(st: State, pid: nat, s: SyncId, conn: Connection): State
    requires s in st.rows
  {
    var ph := Posting(conn, InvoiceStep, 0, 0);
    st.(attempts := st.attempts[pid := Attempt(s, st.rows[s].attemptCount + 1, ph)])
  }

  lemma OpeningRuns(es: seq<Event>, pid: nat, s: SyncId, conn: Connection)
    requires var st := Run(Init, es);
             pid !in st.attempts && s in st.rows && s in st.sources && NeedsCharge(st.sources[s])
    ensures Run(Init, es + Opening(pid, s, conn)) == OpenedState(Run(Init, es), pid, s, conn)
  {
    var st := Run(Init, es);
    Extend(es, Begin(pid, s));
    Extend(es + [Begin(pid, s)], Resolve(pid, Some(conn)));
    assert es + [Begin(pid, s)] + [Resolve(pid, Some(conn))] == es + Opening(pid, s, conn);
    var a := Attempt(s, st.rows[s].attemptCount + 1, Loaded);
    assert Run(Init, es + [Begin(pid, s)]) == st.(attempts := st.attempts[pid := a]);
    var ph := Posting(conn, InvoiceStep, 0, 0);
    assert st.attempts[pid := a][pid := a.(phase := ph)] == st.attempts[pid := a.(phase := ph)];
  }

  lemma LandingRuns(es: seq<Event>, pid: nat, s: SyncId, conn: Connection)
    requires var st := Run(Init, es);
             && pid in st.attempts && s in st.rows && s in st.sources && NeedsCharge(st.sources[s])
             && st.attempts[pid].sync == s
             && st.attempts[pid].phase == Posting(conn, InvoiceStep, 0, 0)
    ensures var st := Run(Init, es);
            var st' := Run(Init, es + Landing(pid, s, st.sources[s], conn));
            && st'.rows == st.rows && st'.sources == st.sources && st'.attempts == st.attempts
            && (exists i :: PostedAt(LedgerOf(st', conn.ledger), i, s, InvoiceStep))
            && (forall c :: LedgerOf(st, c) <= LedgerOf(st', c))
  {
    var st := Run(Init, es);
    var more := Landing(pid, s, st.sources[s], conn);
    Extend(es, more[0]);
    Extend(es + [more[0]], more[1]);
    assert es + [more[0]] + [more[1]] == es + more;
    LandingSteps(st, pid, s, conn);
    RunKeepsInv(es + more);
    var l := Post(LedgerOf(st, conn.ledger), more[1].req.entry);
    hide Run, Next, Find, Post, DocFor, KeyFor, NeedsCharge, SentOk, AttemptsOk, RowsOk;
    assert LedgerOf(Run(Init, es + more), conn.ledger) == l && LedgerOk(st.sources, l);
    AnswerIsOwn(st.sources, l, s, InvoiceStep);
  }

  lemma LandingSteps(st: State, pid: nat, s: SyncId, conn: Connection)
    requires pid in st.attempts && s in st.rows && s in st.sources && NeedsCharge(st.sources[s])
    requires st.attempts[pid].sync == s && st.attempts[pid].phase == Posting(conn, InvoiceStep, 0, 0)
    ensures var more := Landing(pid, s, st.sources[s], conn);
            var req := more[1].req;
            Next(Next(st, more[0]), more[1])
            == st.(sent := st.sent + {req},
                   ledgers := st.ledgers[conn.ledger := Post(LedgerOf(st, conn.ledger), req.entry)])
  {
    hide Find, Post, DocFor, KeyFor, NeedsCharge;
    var more := Landing(pid, s, st.sources[s], conn);
    assert Next(st, more[0]) == st.(sent := st.sent + {more[1].req});
  }

  /** Whatever ran before, such an attempt leaves an invoice of its sync on the ledger it resolved to. */
  lemma InvoiceLands(es: seq<Event>, pid: nat, s: SyncId, conn: Connection) returns (es': seq<Event>)
    requires var st := Run(Init, es);
             pid !in st.attempts && s in st.rows && s in st.sources && NeedsCharge(st.sources[s])
    ensures forall conns :: conn in conns && OnlyConnections(es, conns) ==> OnlyConnections(es', conns)
    ensures var st := Run(Init, es);
            var st' := Run(Init, es');
            && es <= es'
            && st'.rows == st.rows && st'.sources == st.sources
            && st'.attempts.Keys == st.attempts.Keys + {pid}
            && (exists i :: PostedAt(LedgerOf(st', conn.ledger), i, s, InvoiceStep))
            && (forall c :: LedgerOf(st, c) <= LedgerOf(st', c))
  {
    var st := Run(Init, es);
    OpeningRuns(es, pid, s, conn);
    var half := es + Opening(pid, s, conn);
    LandingRuns(half, pid, s, conn);
    es' := half + Landing(pid, s, st.sources[s], conn);
  }

  ghost predicate InvoicedTwice(st: State, s: SyncId) {
    exists l, l', i, i' ::
      l != l' && PostedAt(LedgerOf(st, l), i, s, InvoiceStep) && PostedAt(LedgerOf(st, l'), i', s, InvoiceStep)
  }

  /**
   Exactly once is per ledger: a sync retried after its connection was edited, `c'` being what the same
   row says now, is invoiced on both ledgers.
   */
  lemma EditedConnectionInvoicesTwice(s: SyncId, src: Source, c: Connection, c': Connection)
    requires NeedsCharge(src) && c.ledger != c'.ledger
    ensures exists es :: OnlyConnections(es, {c, c'}) && InvoicedTwice(Run(Init, es), s)
  {
    Extend([], Create(s, src));
    assert [] + [Create(s, src)] == [Create(s, src)];
    assert OnlyConnections([Create(s, src)], {c, c'});
    var es := InvoiceLands([Create(s, src)], 0, s, c);
    assert OnlyConnections(es, {c, c'});
    InvoicedAgain(es, s, c, c', {c, c'});
  }

  lemma InvoicedAgain(es: seq<Event>, s: SyncId, c: Connection, c': Connection, conns: set<Connection>)
    requires c.ledger != c'.ledger && c' in conns && OnlyConnections(es, conns)
    requires var st := Run(Init, es);
             && 1 !in st.attempts && s in st.rows && s in st.sources && NeedsCharge(st.sources[s])
             && exists i :: PostedAt(LedgerOf(st, c.ledger), i, s, InvoiceStep)
    ensures exists es' :: OnlyConnections(es', conns) && InvoicedTwice(Run(Init, es'), s)
  {
    var i :| PostedAt(LedgerOf(Run(Init, es), c.ledger), i, s, InvoiceStep);
    var es' := InvoiceLands(es, 1, s, c');
    assert LedgerOf(Run(Init, es), c.ledger) <= LedgerOf(Run(Init, es'), c.ledger);
    assert PostedAt(LedgerOf(Run(Init, es'), c.ledger), i, s, InvoiceStep);
    var i' :| PostedAt(LedgerOf(Run(Init, es'), c'.ledger), i', s, InvoiceStep);
    assert InvoicedTwice(Run(Init, es'), s);
    assert OnlyConnections(es', conns);
  }

  const PlainCharge := Source(LEDGIX_ERP, PAYMENT_SUCCEEDED, "", None,
                              PayloadFields(None, None, None, None, None, None, None, None))

  /** The exact condition: some run invoices a sync on two ledgers if and only if there are two to resolve to. */
  lemma InvoicedTwiceIffTwoLedgers(conns: set<Connection>)
    ensures (exists es, s :: OnlyConnections(es, conns) && InvoicedTwice(Run(Init, es), s))
       <==> (exists c, c' :: c in conns && c' in conns && c.ledger != c'.ledger)
  {
    hide Run;
    if c, c' :| c in conns && c' in conns && c.ledger != c'.ledger {
      EditedConnectionInvoicesTwice("", PlainCharge, c, c');
      var es :| OnlyConnections(es, {c, c'}) && InvoicedTwice(Run(Init, es), "");
      assert OnlyConnections(es, conns);
    }
    if es, s :| OnlyConnections(es, conns) && InvoicedTwice(Run(Init, es), s) {
      OnlyTheirLedgers(es, conns);
      var st := Run(Init, es);
      var l, l', i, i' :| l != l' && PostedAt(LedgerOf(st, l), i, s, InvoiceStep)
                          && PostedAt(LedgerOf(st, l'), i', s, InvoiceStep);
      assert l in st.ledgers && l' in st.ledgers;
    }
  }

  // ---- where the stored id leads ----

  ghost predicate Charged(st: State, s: SyncId) {
    && s in st.rows && s in st.sources && st.rows[s].status == SUCCESS && NeedsCharge(st.sources[s])
    && st.rows[s].connection.Some?
  }

  /** The chain that row `s` names is in ledger `l`. */
  ghost predicate ChainIn(st: State, s: SyncId, l: nat)
    requires Charged(st, s)
  {
    var r := st.rows[s];
    && r.invoice.Some? && r.receipt.Some? && r.payment.Some?
    && ChainAt(LedgerOf(st, l), s, r.invoice.value, r.receipt.value, r.payment.value)
  }

  /** What a row of `conns` says of a successful charge's connection leads to the charge's chain. */
  ghost predicate LeadsBack(es: seq<Event>, s: SyncId, c: Connection) {
    var st := Run(Init, es);
    Charged(st, s) && st.rows[s].connection.value.id == c.id ==> ChainIn(st, s, c.ledger)
  }

  /** Of each connection one address is read, whenever it is. */
  predicate AddressesStay(conns: set<Connection>) {
    forall c, c' :: c in conns && c' in conns && c.id == c'.id ==> c.ledger == c'.ledger
  }

  /** One call of attempt 0 is sent, delivered and answered. */
  lemma CallAnswered(es: seq<Event>, a: Attempt, conns: set<Connection>) returns (es': seq<Event>, id: nat)
    requires OnlyConnections(es, conns)
    requires var st := Run(Init, es);
             0 in st.attempts && st.attempts[0] == a && a.phase.Posting? && Tracked(st, a)
    ensures OnlyConnections(es', conns)
    ensures var (st, st') := (Run(Init, es), Run(Init, es'));
            && st'.rows == st.rows && st'.sources == st.sources
            && 0 in st'.attempts && st'.attempts[0] == a.(phase := AfterAnswer(a.phase, id))
  {
    hide Run, Find, Post, DocFor, KeyFor;
    var st := Run(Init, es);
    var req := RequestOf(st.sources[a.sync], a);
    var e1 := es + [Send(0)];
    Extend(es, Send(0));
    var e2 := e1 + [Deliver(req)];
    Extend(e1, Deliver(req));
    es' := e2 + [Receive(0)];
    Extend(e2, Receive(0));
    var st1 := Run(Init, e1);
    assert st1 == st.(sent := st.sent + {req});
    var st2 := Run(Init, e2);
    assert st2 == st1.(ledgers := st1.ledgers[req.ledger := Post(LedgerOf(st1, req.ledger), req.entry)]);
    id := Find(LedgerOf(st2, req.ledger), req.entry.key).value;
  }

  /** A charge that is made and recorded over connection `c`. */
  lemma ChargeOver(c: Connection) returns (es: seq<Event>)
    ensures OnlyConnections(es, {c})
    ensures Charged(Run(Init, es), "") && Run(Init, es).rows[""].connection == Some(c)
  {
    var start := [Create("", PlainCharge)];
    Extend([], start[0]);
    assert [] + start == start;
    OpeningRuns(start, 0, "", c);
    es := start + Opening(0, "", c);
    var a := Attempt("", 1, Posting(c, InvoiceStep, 0, 0));
    assert Run(Init, es).attempts[0] == a;
    hide Run, Enabled, Do;
    var id;
    es, id := CallAnswered(es, a, {c});
    a := a.(phase := AfterAnswer(a.phase, id));
    es, id := CallAnswered(es, a, {c});
    a := a.(phase := AfterAnswer(a.phase, id));
    es, id := CallAnswered(es, a, {c});
    a := a.(phase := AfterAnswer(a.phase, id));
    Extend(es, Record(0, 0));
    es := es + [Record(0, 0)];
  }

  /**
   The id that a successful charge stores leads to its chain in every run if and only if no connection
   is ever read with two addresses: an edit leaves the ids that were stored before naming documents in a
   ledger that the connection no longer names.
   */
  lemma StoredIdLeadsBackIff(conns: set<Connection>)
    ensures (forall es, s, c :: OnlyConnections(es, conns) && c in conns ==> LeadsBack(es, s, c))
       <==> AddressesStay(conns)
  {
    hide Run, ChainAt;
    if AddressesStay(conns) {
      forall es, s, c | OnlyConnections(es, conns) && c in conns ensures LeadsBack(es, s, c) {
        OnlyTheirLedgers(es, conns);
        if Charged(Run(Init, es), s) {
          SuccessNamesTheChain(es, s);
        }
      }
    } else {
      var c, c' :| c in conns && c' in conns && c.id == c'.id && c.ledger != c'.ledger;
      var es := ChargeOver(c);
      assert OnlyConnections(es, conns);
      NoChainElsewhere(es, "", c, c');
    }
  }

  lemma NoChainElsewhere(es: seq<Event>, s: SyncId, c: Connection, c': Connection)
    requires OnlyConnections(es, {c}) && c.id == c'.id && c.ledger != c'.ledger
    requires Charged(Run(Init, es), s) && Run(Init, es).rows[s].connection == Some(c)
    ensures !LeadsBack(es, s, c')
  {
    OnlyTheirLedgers(es, {c});
    hide Run;
    assert LedgerOf(Run(Init, es), c'.ledger) == [];
  }
}
