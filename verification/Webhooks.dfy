/**
 The payment webhook pipeline: deliveries, redeliveries and manual confirmations of payment events,
 each a call whose steps may be interrupted, fail or crash anywhere.
 */
module Webhooks {
  import opened Common
  import FE = FinancialEvents

  datatype Kind = PAYMENT_SUCCEEDED | PAYMENT_FAILED | PAYMENT_PENDING

  datatype PaymentEvent = PaymentEvent(kind: Kind, externalEventId: string, externalSubscriptionId: Option<string>,
                                       externalTransactionId: Option<string>, amountMinor: Option<int>,
                                       currency: Option<string>)

  datatype HookStatus = VERIFIED | PROCESSED | FAILED

  /** The unique index of `PaymentWebhook`. */
  datatype HookKey = HookKey(provider: string, externalEventId: string)

  datatype TransactionStatus = PENDING | SUCCEEDED | FAILED_PAYMENT

  datatype Transaction = Transaction(id: string, provider: string, providerTransactionId: string,
                                     subscription: Option<string>, amountMinor: int, currency: string,
                                     status: TransactionStatus)

  datatype SubscriptionStatus =
    | INCOMPLETE | TRIALING | ACTIVE | PAST_DUE | GRACE_PERIOD | PAUSED | CANCELED | EXPIRED | SUSPENDED

  /** A subscription row as a call has read it. */
  datatype Snapshot = Snapshot(id: string, status: SubscriptionStatus)

  datatype Result = Skipped | Processed | MarkedFailed | Confirmed | Stopped

  datatype Phase =
    | Looking
    | Creating
    | FindingSubscription
    | FindingTransaction
    | CreatingTransaction
    | Linking
    | Settling
    | Advancing
    | Recording
    | Publishing
    | MarkingProcessed
    | MarkingFailed
    | Ended(result: Result)

  /**
   The handling of one event: a delivery's, or a manual confirmation, which has no webhook row.
   `tx` is the transaction's place in its table; `advanced` tells that the subscription engine activated
   or renewed the subscription for this call.
   */
  datatype Call = Call(provider: string, organization: string, event: PaymentEvent, manual: bool, phase: Phase,
                       sub: Option<Snapshot>, tx: Option<nat>, advanced: bool)

  datatype State = State(hooks: map<HookKey, HookStatus>, txs: seq<Transaction>, books: FE.Tables,
                         calls: map<nat, Call>)

  /** What a step reads elsewhere: the subscription it finds, whether a customer is found, a new id, settings. */
  datatype World = World(subscription: Option<Snapshot>, customerFound: bool, newId: string,
                         integration: FE.Provider, manualProvider: bool)

  datatype Event =
    | Begin(call: nat, provider: string, organization: string, event: PaymentEvent, manual: bool)
    | Turn(call: nat, world: World)
    | Fail(call: nat)
    | Crash(call: nat)
    | RecordElsewhere(request: FE.Request, integration: FE.Provider)
    | RecordManually(transaction: Transaction)

  const Init := State(map[], [], FE.Tables([], [], []), map[])

  const PaidPrefix := "payment_succeeded:"

  function PaidKey(id: string): string {
    PaidPrefix + id
  }

  function FailedKey(id: string, externalEventId: string): string {
    "payment_failed:" + id + ":" + externalEventId
  }

  /** JavaScript's truth of an optional string. */
  predicate Truthy(s: Option<string>) {
    s.Some? && s.value != ""
  }

  predicate PreActivation(s: SubscriptionStatus) {
    s.INCOMPLETE? || s.TRIALING?
  }

  predicate ActiveLike(s: SubscriptionStatus) {
    s.ACTIVE? || s.PAST_DUE? || s.GRACE_PERIOD?
  }

  function KeyOf(c: Call): HookKey {
    HookKey(c.provider, c.event.externalEventId)
  }

  predicate Named(t: Transaction, provider: string, reference: string) {
    t.provider == provider && t.providerTransactionId == reference
  }

  function FindTx(txs: seq<Transaction>, provider: string, reference: string): (r: Option<nat>)
    ensures r.Some? ==> r.value < |txs| && Named(txs[r.value], provider, reference)
    ensures r.None? ==> forall i :: 0 <= i < |txs| ==> !Named(txs[i], provider, reference)
  {
    if txs == [] then None
    else
      var last := txs[|txs| - 1];
      if Named(last, provider, reference) then Some(|txs| - 1)
      else FindTx(txs[..|txs| - 1], provider, reference)
  }

  /** `record` as one step: the row of its key is there afterwards, the one that was or a new one. */
  function Record(t: FE.Tables, r: FE.Request, author: nat, integration: FE.Provider): FE.Tables {
    FE.Transaction(t, r, author, integration).GetOr(t)
  }

  // ---- the steps of one call ----

  /** An error that is thrown inside `dispatch` or while the row is marked. */
  function Thrown(c: Call): Call {
    c.(phase := if c.manual then Ended(Stopped) else MarkingFailed)
  }

  function AfterDispatch(c: Call): Call {
    c.(phase := if c.manual then Ended(Confirmed) else MarkingProcessed)
  }

  function Look(hooks: map<HookKey, HookStatus>, c: Call): Call {
    if KeyOf(c) in hooks
    then c.(phase := if hooks[KeyOf(c)].PROCESSED? then Ended(Skipped) else FindingSubscription)
    else c.(phase := Creating)
  }

  function FindTransaction(txs: seq<Transaction>, c: Call, w: World): Call {
    if !Truthy(c.event.externalTransactionId) then c.(phase := Linking)
    else
      var found := FindTx(txs, c.provider, c.event.externalTransactionId.value);
      if found.Some? then c.(phase := Linking, tx := found)
      else if c.event.amountMinor.None? || !Truthy(c.event.currency) || !w.customerFound then c.(phase := Linking)
      else c.(phase := CreatingTransaction)
  }

  predicate CanCreate(txs: seq<Transaction>, c: Call, w: World) {
    && Truthy(c.event.externalTransactionId) && Truthy(c.event.currency) && c.event.amountMinor.Some?
    && FindTx(txs, c.provider, c.event.externalTransactionId.value).None?
    && forall i :: 0 <= i < |txs| ==> txs[i].id != w.newId
  }

  function NewTx(c: Call, w: World): Transaction
    requires c.event.externalTransactionId.Some? && c.event.amountMinor.Some? && c.event.currency.Some?
  {
    Transaction(w.newId, c.provider, c.event.externalTransactionId.value,
                if c.sub.Some? then Some(c.sub.value.id) else None,
                c.event.amountMinor.value, c.event.currency.value, PENDING)
  }

  function Link(txs: seq<Transaction>, c: Call, w: World): Call {
    var next := if c.event.kind.PAYMENT_PENDING? then AfterDispatch(c) else c.(phase := Settling);
    if c.sub.None? && c.tx.Some? && c.tx.value < |txs| && txs[c.tx.value].subscription.Some?
       && w.subscription.Some? && w.subscription.value.id == txs[c.tx.value].subscription.value
    then next.(sub := w.subscription)
    else next
  }

  function Settle(txs: seq<Transaction>, c: Call): seq<Transaction> {
    if c.tx.Some? && c.tx.value < |txs|
    then txs[c.tx.value := txs[c.tx.value].(status := if c.event.kind.PAYMENT_SUCCEEDED? then SUCCEEDED
                                                      else FAILED_PAYMENT)]
    else txs
  }

  /** `recoverOrRenew`, whose call of the subscription engine commits with this step. */
  function Advance(c: Call): Call {
    c.(phase := Recording,
       advanced := c.event.kind.PAYMENT_SUCCEEDED? && c.sub.Some?
                   && (PreActivation(c.sub.value.status) || ActiveLike(c.sub.value.status)))
  }

  /** What `recordPaymentSucceeded` records, or the record of a failed payment. */
  function RequestOf(t: Transaction, c: Call, w: World): FE.Request {
    var initial := c.sub.Some? && PreActivation(c.sub.value.status);
    var refs := if c.sub.Some? then c.sub.value.id else "";
    if c.event.kind.PAYMENT_SUCCEEDED? then
      FE.Request(c.organization, if initial then "SUBSCRIPTION_ACTIVATED" else "SUBSCRIPTION_RENEWED",
                 FE.Payload(if w.manualProvider then "manual_confirmation"
                            else if initial then "initial_payment" else "renewal",
                            Some(t.id), Some(t.amountMinor), Some(t.currency)),
                 refs, Some(PaidKey(t.id)))
    else
      FE.Request(c.organization, "PAYMENT_FAILED",
                 FE.Payload("payment_failed", Some(t.id), Some(t.amountMinor), Some(t.currency)),
                 refs, Some(FailedKey(t.id, c.event.externalEventId)))
  }

  /** What the next step of an unfinished call makes of the call ... */
  function CallAfter(st: State, c: Call, w: World): Call {
    match c.phase
    case Looking => Look(st.hooks, c)
    case Creating => c.(phase := if KeyOf(c) in st.hooks then Ended(Stopped) else FindingSubscription)
    case FindingSubscription =>
      c.(phase := FindingTransaction,
         sub := if Truthy(c.event.externalSubscriptionId) then w.subscription else None)
    case FindingTransaction => FindTransaction(st.txs, c, w)
    case CreatingTransaction =>
      if CanCreate(st.txs, c, w) then c.(phase := Linking, tx := Some(|st.txs|)) else Thrown(c)
    case Linking => Link(st.txs, c, w)
    case Settling => c.(phase := Advancing)
    case Advancing => Advance(c)
    case Recording => if c.tx.Some? then c.(phase := Publishing) else AfterDispatch(c)
    case Publishing => AfterDispatch(c)
    case MarkingProcessed => c.(phase := Ended(Processed))
    case MarkingFailed => c.(phase := Ended(MarkedFailed))
    case Ended(_) => c
  }

  /** ... of the webhook rows ... */
  function HooksAfter(hooks: map<HookKey, HookStatus>, c: Call): map<HookKey, HookStatus> {
    match c.phase
    case Creating => if KeyOf(c) in hooks then hooks else hooks[KeyOf(c) := VERIFIED]
    case MarkingProcessed => hooks[KeyOf(c) := PROCESSED]
    case MarkingFailed => hooks[KeyOf(c) := FAILED]
    case _ => hooks
  }

  /** ... of the transactions ... */
  function TxsAfter(txs: seq<Transaction>, c: Call, w: World): seq<Transaction> {
    match c.phase
    case CreatingTransaction => if CanCreate(txs, c, w) then txs + [NewTx(c, w)] else txs
    case Settling => Settle(txs, c)
    case _ => txs
  }

  /** ... and of the financial events. */
  function BooksAfter(st: State, id: nat, c: Call, w: World): FE.Tables {
    if c.phase.Recording? && c.tx.Some? && c.tx.value < |st.txs|
    then Record(st.books, RequestOf(st.txs[c.tx.value], c, w), id, w.integration)
    else st.books
  }

  function Proceed(st: State, id: nat, c: Call, w: World): State {
    State(HooksAfter(st.hooks, c), TxsAfter(st.txs, c, w), BooksAfter(st, id, c, w),
          st.calls[id := CallAfter(st, c, w)])
  }

  function SetCall(st: State, id: nat, c: Call): State {
    st.(calls := st.calls[id := c])
  }

  /** An error thrown at the call's next step. */
  function FailCall(c: Call): Call {
    if c.phase.Ended? then c
    else if c.phase.Looking? || c.phase.Creating? || c.phase.MarkingFailed? then c.(phase := Ended(Stopped))
    else Thrown(c)
  }

  function Started(provider: string, organization: string, event: PaymentEvent, manual: bool): Call {
    Call(provider, organization, event, manual, if manual then FindingSubscription else Looking, None, None, false)
  }

  predicate PaidFamily(key: Option<string>) {
    key.Some? && PaidPrefix <= key.value
  }

  /** A transaction that staff enter for a provider without webhooks; an id or reference in use is an error. */
  function WithManual(txs: seq<Transaction>, t: Transaction): seq<Transaction> {
    if (forall i :: 0 <= i < |txs| ==> txs[i].id != t.id)
       && FindTx(txs, t.provider, t.providerTransactionId).None?
    then txs + [t.(status := PENDING)]
    else txs
  }

  /** The step is one of a call. */
  predicate OfCall(e: Event) {
    !e.RecordElsewhere? && !e.RecordManually?
  }

  /** A step that is not possible in `st` changes nothing. */
  function Next(st: State, e: Event): State {
    match e
    case Begin(id, provider, organization, event, manual) =>
      if id in st.calls then st else SetCall(st, id, Started(provider, organization, event, manual))
    case Turn(id, world) => if id in st.calls then Proceed(st, id, st.calls[id], world) else st
    case Fail(id) => if id in st.calls then SetCall(st, id, FailCall(st.calls[id])) else st
    case Crash(id) =>
      if id in st.calls && !st.calls[id].phase.Ended?
      then SetCall(st, id, st.calls[id].(phase := Ended(Stopped))) else st
    case RecordElsewhere(request, integration) =>
      // The other callers of `record` use keys of other families, or none.
      if PaidFamily(request.key) then st
      else st.(books := Record(st.books, request, 0, integration))
    case RecordManually(transaction) => st.(txs := WithManual(st.txs, transaction))
  }

  function Run(st: State, es: seq<Event>): State {
    if es == [] then st else Next(Run(st, es[..|es| - 1]), es[|es| - 1])
  }

  // ---- what every step keeps, whatever overlaps or fails ----

  /** Neither an id nor a provider's reference names two transactions. */
  ghost predicate TxsOk(txs: seq<Transaction>) {
    && (forall i, j :: 0 <= i < |txs| && 0 <= j < |txs| && txs[i].id == txs[j].id ==> i == j)
    && (forall i, j | 0 <= i < |txs| && 0 <= j < |txs| ::
          Named(txs[i], txs[j].provider, txs[j].providerTransactionId) ==> i == j)
  }

  /** Request `r` books the payment of transaction `t`. */
  predicate BooksPayment(r: FE.Request, t: Transaction) {
    && r.key == Some(PaidKey(t.id))
    && r.payload.transaction == Some(t.id)
    && r.payload.amountMinor == Some(t.amountMinor)
    && r.payload.currency == Some(t.currency)
  }

  /** Every event of the family books the payment of a transaction. */
  ghost predicate PaidOk(txs: seq<Transaction>, events: seq<FE.EventRow>) {
    forall i :: 0 <= i < |events| && PaidFamily(events[i].request.key) ==>
      exists j :: 0 <= j < |txs| && BooksPayment(events[i].request, txs[j])
  }

  predicate Booked(events: seq<FE.EventRow>, id: string) {
    FE.Find(events, PaidKey(id)).Some?
  }

  predicate PastRecording(p: Phase) {
    p.Publishing? || p.MarkingProcessed? || p == Ended(Processed) || p == Ended(Confirmed)
  }

  predicate CallOk(txs: seq<Transaction>, events: seq<FE.EventRow>, c: Call) {
    c.tx.Some? ==>
      && c.tx.value < |txs|
      && txs[c.tx.value].provider == c.provider
      && c.event.externalTransactionId == Some(txs[c.tx.value].providerTransactionId)
      && (PastRecording(c.phase) && c.event.kind.PAYMENT_SUCCEEDED? ==> Booked(events, txs[c.tx.value].id))
  }

  ghost predicate CallsOk(st: State) {
    forall id :: id in st.calls ==> CallOk(st.txs, st.books.events, st.calls[id])
  }

  predicate EndedProcessed(c: Call, k: HookKey) {
    !c.manual && KeyOf(c) == k && c.phase == Ended(Processed)
  }

  /** A row is `PROCESSED` only because some call came through. */
  ghost predicate ProcessedOk(st: State) {
    forall k :: k in st.hooks && st.hooks[k].PROCESSED? ==>
      exists id :: id in st.calls && EndedProcessed(st.calls[id], k)
  }

  ghost predicate BooksOk(books: FE.Tables) {
    FE.KeysUnique(books.events) && FE.RowsMatch(books)
  }

  ghost predicate Inv(st: State) {
    && BooksOk(st.books)
    && TxsOk(st.txs)
    && PaidOk(st.txs, st.books.events)
    && CallsOk(st)
    && ProcessedOk(st)
    && ManualsOk(st)
  }

  /** The phases of a manual confirmation, which has no row to look for or to mark. */
  predicate Dispatching(p: Phase) {
    !p.Looking? && !p.Creating? && !p.MarkingProcessed? && !p.MarkingFailed? && p != Ended(Processed)
  }

  predicate SameTx(t: Transaction, t': Transaction) {
    t' == t.(status := t'.status)
  }

  /** Transactions are added and change status, nothing else. */
  ghost predicate Grows(txs: seq<Transaction>, txs': seq<Transaction>) {
    |txs| <= |txs'| && forall i :: 0 <= i < |txs| ==> SameTx(txs[i], txs'[i])
  }

  lemma {:induction false} FindStays(events: seq<FE.EventRow>, events': seq<FE.EventRow>, key: string)
    requires events <= events' && FE.Find(events, key).Some?
    ensures FE.Find(events', key).Some?
  {
    var i := FE.Find(events, key).value;
    assert events'[i] == events[i];
  }

  lemma GrowthKeepsCall(txs: seq<Transaction>, txs': seq<Transaction>, events: seq<FE.EventRow>,
                        events': seq<FE.EventRow>, c: Call)
    requires Grows(txs, txs') && events <= events' && CallOk(txs, events, c)
    ensures CallOk(txs', events', c)
  {
    if c.tx.Some? && Booked(events, txs[c.tx.value].id) {
      FindStays(events, events', PaidKey(txs[c.tx.value].id));
    }
    hide FE.Find;
  }

  /** What `Record` does: nothing when the key is taken, else one more row in each table. */
  lemma RecordWrites(t: FE.Tables, r: FE.Request, author: nat, integration: FE.Provider)
    requires BooksOk(t)
    ensures var t' := Record(t, r, author, integration);
            && BooksOk(t') && t.events <= t'.events
            && (r.key.Some? ==> FE.Find(t'.events, r.key.value).Some?)
            && (t'.events == t.events || t'.events == t.events + [FE.EventRow(r, author)])
  {
    FE.OnlyTheKeyCollides(t, r, author, integration);
    hide FE.Transaction;
    var t' := Record(t, r, author, integration);
    if t' != t {
      assert t'.events[|t.events|] == FE.EventRow(r, author);
    }
    hide FE.Find;
  }

  /** A transaction entered by hand waits for its confirmation, unless its id or its reference is in use. */
  lemma ManualIsRecorded(st: State, t: Transaction)
    ensures var st' := Next(st, RecordManually(t));
            && st' == st.(txs := st'.txs)
            && ((exists i ::
                   && 0 <= i < |st.txs|
                   && (st.txs[i].id == t.id
                       || (st.txs[i].provider == t.provider
                           && st.txs[i].providerTransactionId == t.providerTransactionId))) ==>
                  st'.txs == st.txs)
            && ((forall i :: 0 <= i < |st.txs| ==>
                   && st.txs[i].id != t.id
                   && (st.txs[i].provider == t.provider ==>
                         st.txs[i].providerTransactionId != t.providerTransactionId)) ==>
                  st'.txs == st.txs + [Transaction(t.id, t.provider, t.providerTransactionId, t.subscription,
                                                   t.amountMinor, t.currency, PENDING)])
  {
    hide Record;
    if FindTx(st.txs, t.provider, t.providerTransactionId).Some? {
      var i := FindTx(st.txs, t.provider, t.providerTransactionId).value;
      assert Named(st.txs[i], t.provider, t.providerTransactionId);
    } else {
      assert forall i :: 0 <= i < |st.txs| ==> !Named(st.txs[i], t.provider, t.providerTransactionId);
    }
    hide FindTx;
  }

  /** What other callers record is in the books afterwards, with a row of its own when it has no key. */
  lemma ElsewhereIsRecorded(st: State, r: FE.Request, integration: FE.Provider)
    requires BooksOk(st.books) && (r.key.Some? ==> !("payment_succeeded:" <= r.key.value))
    ensures var st' := Next(st, RecordElsewhere(r, integration));
            && st' == st.(books := st'.books) && st.books.events <= st'.books.events
            && (r.key.Some? ==> FE.Find(st'.books.events, r.key.value).Some?)
            && (r.key.None? || FE.Find(st.books.events, r.key.value).None? ==>
                  |st'.books.events| == |st.books.events| + 1 && st'.books.events[|st.books.events|].request == r)
  {
    RecordWrites(st.books, r, 0, integration);
    FE.OnlyTheKeyCollides(st.books, r, 0, integration);
    hide FE.Transaction, FE.Find;
  }

  /** A crash stops a call where it is, and nothing else changes. */
  lemma CrashStopsTheCall(st: State, id: nat)
    requires id in st.calls && !st.calls[id].phase.Ended?
    ensures var st' := Next(st, Crash(id));
            && st' == st.(calls := st'.calls) && st'.calls.Keys == st.calls.Keys
            && st'.calls[id].phase == Ended(Stopped)
            && forall d :: d in st.calls && d != id ==> st'.calls[d] == st.calls[d]
  {
  }

  lemma PaidStays(txs: seq<Transaction>, txs': seq<Transaction>, events: seq<FE.EventRow>)
    requires Grows(txs, txs') && PaidOk(txs, events)
    ensures PaidOk(txs', events)
  {
    forall i | 0 <= i < |events| && PaidFamily(events[i].request.key)
      ensures exists j :: 0 <= j < |txs'| && BooksPayment(events[i].request, txs'[j])
    {
      var j :| 0 <= j < |txs| && BooksPayment(events[i].request, txs[j]);
      assert SameTx(txs[j], txs'[j]) && BooksPayment(events[i].request, txs'[j]);
    }
  }

  /** The families of keys do not meet, and a key names its transaction. */
  lemma KeysIdentifyPayments(id: string, id': string, externalEventId: string)
    ensures PaidFamily(Some(PaidKey(id))) && !PaidFamily(Some(FailedKey(id', externalEventId)))
    ensures PaidKey(id) == PaidKey(id') ==> id == id'
  {
    assert FailedKey(id', externalEventId)[8] == 'f' && PaidPrefix[8] == 's';
    if PaidKey(id) == PaidKey(id') {
      assert id == PaidKey(id)[|PaidPrefix|..] == PaidKey(id')[|PaidPrefix|..] == id';
    }
  }

  lemma RequestBooks(t: Transaction, c: Call, w: World)
    ensures var r := RequestOf(t, c, w);
            && (c.event.kind.PAYMENT_SUCCEEDED? ==> BooksPayment(r, t))
            && (!c.event.kind.PAYMENT_SUCCEEDED? ==> !PaidFamily(r.key))
  {
    KeysIdentifyPayments(t.id, t.id, c.event.externalEventId);
  }

  /** What a step may do to the transactions and the books. */
  ghost predicate TablesKept(st: State, st': State) {
    && Grows(st.txs, st'.txs) && TxsOk(st'.txs)
    && st.books.events <= st'.books.events && BooksOk(st'.books)
    && PaidOk(st'.txs, st'.books.events)
  }

  lemma TransactionsGrow(txs: seq<Transaction>, c: Call, w: World)
    requires TxsOk(txs)
    ensures Grows(txs, TxsAfter(txs, c, w)) && TxsOk(TxsAfter(txs, c, w))
  {
    hide FindTx;
  }

  lemma ManualGrows(txs: seq<Transaction>, t: Transaction)
    requires TxsOk(txs)
    ensures Grows(txs, WithManual(txs, t)) && TxsOk(WithManual(txs, t))
  {
    hide FindTx;
  }

  lemma RecordingKeepsPaid(txs: seq<Transaction>, t: FE.Tables, r: FE.Request, author: nat,
                           integration: FE.Provider)
    requires BooksOk(t) && PaidOk(txs, t.events)
    requires PaidFamily(r.key) ==> exists j :: 0 <= j < |txs| && BooksPayment(r, txs[j])
    ensures var t' := Record(t, r, author, integration);
            BooksOk(t') && t.events <= t'.events && PaidOk(txs, t'.events)
  {
    RecordWrites(t, r, author, integration);
    hide Record, BooksOk, BooksPayment, PaidFamily;
  }

  lemma BooksStayInOrder(st: State, id: nat, c: Call, w: World)
    requires BooksOk(st.books) && PaidOk(st.txs, st.books.events)
    ensures var books := BooksAfter(st, id, c, w);
            BooksOk(books) && st.books.events <= books.events && PaidOk(st.txs, books.events)
  {
    if c.phase.Recording? && c.tx.Some? && c.tx.value < |st.txs| {
      var t := st.txs[c.tx.value];
      RequestBooks(t, c, w);
      RecordingKeepsPaid(st.txs, st.books, RequestOf(t, c, w), id, w.integration);
      hide Record, BooksOk, RequestOf;
    }
  }

  lemma StepKeepsTables(st: State, e: Event)
    requires Inv(st)
    ensures TablesKept(st, Next(st, e))
  {
    hide CallsOk, ProcessedOk, ManualsOk;
    if e.Turn? && e.call in st.calls {
      var c := st.calls[e.call];
      TransactionsGrow(st.txs, c, e.world);
      BooksStayInOrder(st, e.call, c, e.world);
      hide TxsAfter, BooksAfter, BooksOk, Grows, TxsOk, PaidOk;
      PaidStays(st.txs, TxsAfter(st.txs, c, e.world), BooksAfter(st, e.call, c, e.world).events);
    } else if e.RecordElsewhere? && !PaidFamily(e.request.key) {
      RecordingKeepsPaid(st.txs, st.books, e.request, 0, e.integration);
      hide Record, BooksOk;
    } else if e.RecordManually? {
      ManualGrows(st.txs, e.transaction);
      hide WithManual, BooksOk, Grows, TxsOk, PaidOk;
      PaidStays(st.txs, WithManual(st.txs, e.transaction), st.books.events);
    } else {
      hide Record, BooksOk, TxsOk, PaidOk;
    }
  }

  /** The call keeps its event; it is past recording only if it was before, or has nothing to record. */
  predicate SameTransaction(c: Call, c': Call) {
    && c'.tx == c.tx
    && (PastRecording(c'.phase) ==> PastRecording(c.phase) || c.event.kind.PAYMENT_PENDING? || c.tx.None?)
  }

  predicate SameEvent(c: Call, c': Call) {
    && c'.provider == c.provider && c'.event == c.event && c'.manual == c.manual
  }

  lemma PartsKeepEvent(st: State, c: Call, w: World)
    ensures SameEvent(c, Look(st.hooks, c)) && SameEvent(c, FindTransaction(st.txs, c, w))
    ensures SameEvent(c, Link(st.txs, c, w)) && SameEvent(c, Advance(c))
    ensures SameEvent(c, AfterDispatch(c)) && SameEvent(c, Thrown(c))
  {
    hide FindTx, Truthy, PreActivation, ActiveLike, KeyOf;
  }

  lemma CallKeepsEvent(st: State, c: Call, w: World)
    ensures SameEvent(c, CallAfter(st, c, w)) && KeyOf(CallAfter(st, c, w)) == KeyOf(c)
  {
    PartsKeepEvent(st, c, w);
    assert SameEvent(c, CallAfter(st, c, w)) by {
      hide Look, FindTransaction, Link, Advance, AfterDispatch, Thrown, CanCreate, Truthy, KeyOf;
    }
    hide CallAfter;
  }

  lemma ManualKeepsDispatching(st: State, c: Call, w: World)
    requires c.manual && Dispatching(c.phase)
    ensures Dispatching(CallAfter(st, c, w).phase)
  {
    hide FindTx, CanCreate, Truthy, PreActivation, ActiveLike, KeyOf;
  }

  lemma MostStepsKeepTransaction(st: State, c: Call, w: World)
    requires !c.phase.FindingTransaction? && !c.phase.CreatingTransaction? && !c.phase.Recording?
    ensures SameTransaction(c, CallAfter(st, c, w))
  {
    hide Truthy;
  }

  lemma SameTransactionKeepsCall(txs: seq<Transaction>, txs': seq<Transaction>, events: seq<FE.EventRow>,
                                 events': seq<FE.EventRow>, c: Call, c': Call)
    requires CallOk(txs, events, c) && SameTransaction(c, c') && SameEvent(c, c')
    requires Grows(txs, txs') && events <= events'
    ensures CallOk(txs', events', c')
  {
    GrowthKeepsCall(txs, txs', events, events', c);
    hide Booked, Grows;
  }

  lemma FindingKeepsCall(st: State, c: Call, w: World)
    requires CallOk(st.txs, st.books.events, c) && (c.phase.FindingTransaction? || c.phase.CreatingTransaction?)
    ensures CallOk(TxsAfter(st.txs, c, w), st.books.events, CallAfter(st, c, w))
  {
    hide Booked, Settle, FindTx;
  }

  lemma RecordingKeepsCall(st: State, id: nat, c: Call, w: World)
    requires BooksOk(st.books) && c.phase.Recording? && CallOk(st.txs, st.books.events, c)
    ensures CallOk(st.txs, BooksAfter(st, id, c, w).events, CallAfter(st, c, w))
  {
    if c.tx.Some? {
      var t := st.txs[c.tx.value];
      RecordWrites(st.books, RequestOf(t, c, w), id, w.integration);
      hide Record, BooksOk, FE.Find;
    }
  }

  lemma OwnStepKeepsCall(st: State, id: nat, c: Call, w: World)
    requires Inv(st) && CallOk(st.txs, st.books.events, c)
    ensures var st' := Proceed(st, id, c, w); CallOk(st'.txs, st'.books.events, st'.calls[id])
  {
    if c.phase.FindingTransaction? || c.phase.CreatingTransaction? {
      FindingKeepsCall(st, c, w);
    } else if c.phase.Recording? {
      RecordingKeepsCall(st, id, c, w);
    } else {
      TransactionsGrow(st.txs, c, w);
      MostStepsKeepTransaction(st, c, w);
      CallKeepsEvent(st, c, w);
      hide SameTransaction, SameEvent, Inv, CallOk, Grows, TxsAfter, CallAfter, HooksAfter;
      SameTransactionKeepsCall(st.txs, TxsAfter(st.txs, c, w), st.books.events, st.books.events, c, CallAfter(st, c, w));
    }
    hide TxsAfter, CallAfter, HooksAfter, CallOk, Record, Inv;
  }

  ghost predicate ManualsOk(st: State) {
    forall id :: id in st.calls && st.calls[id].manual ==> Dispatching(st.calls[id].phase)
  }

  /** At most one call moves. */
  ghost predicate OthersStay(st: State, st': State, id: nat) {
    forall d :: d != id ==> (d in st'.calls <==> d in st.calls) && (d in st.calls ==> st'.calls[d] == st.calls[d])
  }

  lemma StepMovesOne(st: State, e: Event)
    ensures OfCall(e) ==> OthersStay(st, Next(st, e), e.call)
    ensures !OfCall(e) ==> Next(st, e).calls == st.calls && Next(st, e).hooks == st.hooks
  {
    hide CallAfter, TxsAfter, BooksAfter, HooksAfter, Record;
  }

  lemma StepKeepsManuals(st: State, e: Event)
    requires Inv(st)
    ensures ManualsOk(Next(st, e))
  {
    hide BooksOk, CallsOk, ProcessedOk, TxsOk, PaidOk, Record, CallAfter, TxsAfter, BooksAfter, HooksAfter;
    if e.Turn? && e.call in st.calls {
      var c := st.calls[e.call];
      CallKeepsEvent(st, c, e.world);
      if c.manual {
        ManualKeepsDispatching(st, c, e.world);
      }
    }
  }

  lemma StepKeepsCalls(st: State, e: Event)
    requires Inv(st)
    ensures CallsOk(Next(st, e))
  {
    var st' := Next(st, e);
    StepKeepsTables(st, e);
    StepMovesOne(st, e);
    assert CallsOk(st);
    hide Next, Inv, TxsOk, PaidOk, BooksOk, CallOk, Grows;
    forall d | d in st'.calls ensures CallOk(st'.txs, st'.books.events, st'.calls[d]) {
      if d in st.calls && st'.calls[d] == st.calls[d] {
        GrowthKeepsCall(st.txs, st'.txs, st.books.events, st'.books.events, st.calls[d]);
      } else {
        MovedCallOk(st, e);
      }
    }
  }

  lemma MovedCallOk(st: State, e: Event)
    requires Inv(st) && OfCall(e) && e.call in Next(st, e).calls
    requires e.call in st.calls ==> Next(st, e).calls[e.call] != st.calls[e.call]
    ensures CallOk(Next(st, e).txs, Next(st, e).books.events, Next(st, e).calls[e.call])
  {
    if e.Turn? {
      OwnStepKeepsCall(st, e.call, st.calls[e.call], e.world);
      hide CallOk, Proceed;
    } else {
      hide Booked, BooksOk, ProcessedOk, TxsOk, PaidOk, Record, Proceed;
    }
  }

  lemma MarksProcessed(hooks: map<HookKey, HookStatus>, c: Call, k: HookKey)
    requires k in HooksAfter(hooks, c) && HooksAfter(hooks, c)[k].PROCESSED?
    ensures (k in hooks && hooks[k].PROCESSED?) || (c.phase.MarkingProcessed? && KeyOf(c) == k)
  {
  }

  lemma EndedStays(st: State, e: Event, id: nat)
    requires id in st.calls && st.calls[id].phase.Ended?
    ensures id in Next(st, e).calls && Next(st, e).calls[id] == st.calls[id]
  {
    hide Look, FindTransaction, Link, Advance, AfterDispatch, Thrown, TxsAfter, BooksAfter, HooksAfter, Record, CanCreate;
  }

  lemma StepKeepsProcessed(st: State, e: Event)
    requires Inv(st)
    ensures ProcessedOk(Next(st, e))
  {
    var st' := Next(st, e);
    forall id | id in st.calls && st.calls[id].phase.Ended? ensures id in st'.calls && st'.calls[id] == st.calls[id] {
      EndedStays(st, e, id);
    }
    hide CallsOk, BooksOk, TxsOk, PaidOk, Record, TxsAfter, BooksAfter, HooksAfter, CallAfter;
    forall k | k in st'.hooks && st'.hooks[k].PROCESSED?
      ensures exists id :: id in st'.calls && EndedProcessed(st'.calls[id], k)
    {
      if k in st.hooks && st.hooks[k].PROCESSED? {
        var id :| id in st.calls && EndedProcessed(st.calls[id], k);
        assert EndedProcessed(st'.calls[id], k);
      } else {
        MarksProcessed(st.hooks, st.calls[e.call], k);
        MarkingEnds(st, st.calls[e.call], e.world);
        assert EndedProcessed(st'.calls[e.call], k);
      }
    }
  }

  lemma MarkingEnds(st: State, c: Call, w: World)
    requires c.phase.MarkingProcessed?
    ensures CallAfter(st, c, w) == c.(phase := Ended(Processed))
  {
  }

  lemma NextKeepsInv(st: State, e: Event)
    requires Inv(st)
    ensures Inv(Next(st, e))
  {
    StepKeepsTables(st, e);
    StepKeepsCalls(st, e);
    StepKeepsProcessed(st, e);
    StepKeepsManuals(st, e);
    hide BooksOk, TxsOk, PaidOk, CallsOk, ProcessedOk, ManualsOk, Next, Grows;
  }

  lemma {:induction false} RunKeepsInv(es: seq<Event>)
    ensures Inv(Run(Init, es))
  {
    if es != [] {
      hide Inv, Next;
      RunKeepsInv(es[..|es| - 1]);
      NextKeepsInv(Run(Init, es[..|es| - 1]), es[|es| - 1]);
    }
  }

  // ---- deliveries of one event that do not overlap ----

  /** No webhook call is at work on this row. */
  ghost predicate Idle(st: State, k: HookKey) {
    forall id :: id in st.calls && !st.calls[id].manual && KeyOf(st.calls[id]) == k ==> st.calls[id].phase.Ended?
  }

  /** An event is delivered again only after its former delivery has ended, however it did. */
  ghost predicate Disciplined(es: seq<Event>) {
    es == [] ||
    (var (before, e) := (es[..|es| - 1], es[|es| - 1]);
     && Disciplined(before)
     && (e.Begin? && !e.manual ==> Idle(Run(Init, before), HookKey(e.provider, e.event.externalEventId))))
  }

  /** How a call's phase and its row's status go together. */
  predicate InTurn(hooks: map<HookKey, HookStatus>, c: Call) {
    c.manual || c.phase.Looking?
    || (if c.phase.Creating? then KeyOf(c) !in hooks
        else if c.phase.Ended? then
          (c.phase.result.Processed? ==> KeyOf(c) in hooks && hooks[KeyOf(c)].PROCESSED?)
        else KeyOf(c) in hooks && !hooks[KeyOf(c)].PROCESSED?)
  }

  predicate AtWork(c: Call) {
    !c.manual && !c.phase.Ended?
  }

  ghost predicate Alone(calls: map<nat, Call>) {
    forall c, d | c in calls && d in calls && AtWork(calls[c]) && AtWork(calls[d]) ::
      KeyOf(calls[c]) == KeyOf(calls[d]) ==> c == d
  }

  ghost predicate OneProcessed(calls: map<nat, Call>) {
    forall c, d | c in calls && d in calls && KeyOf(calls[c]) == KeyOf(calls[d]) ::
      calls[c].phase == Ended(Processed) == calls[d].phase ==> c == d
  }

  ghost predicate AllInTurn(st: State) {
    forall c :: c in st.calls ==> InTurn(st.hooks, st.calls[c])
  }

  ghost predicate Sequential(st: State) {
    Alone(st.calls) && OneProcessed(st.calls) && AllInTurn(st)
  }

  lemma OwnStepInTurn(st: State, c: Call, w: World)
    requires InTurn(st.hooks, c) && (c.manual ==> Dispatching(c.phase)) && !c.phase.Ended?
    ensures InTurn(HooksAfter(st.hooks, c), CallAfter(st, c, w))
    ensures CallAfter(st, c, w).phase == Ended(Processed) ==> c.phase.MarkingProcessed?
  {
    hide FindTx, CanCreate, Truthy, PreActivation, ActiveLike;
  }

  lemma HooksChangeAtOneKey(hooks: map<HookKey, HookStatus>, c: Call, d: Call)
    requires InTurn(hooks, c) && InTurn(hooks, d) && !c.manual && !c.phase.Ended?
    requires KeyOf(c) == KeyOf(d) ==> d.manual || d.phase.Ended?
    ensures InTurn(HooksAfter(hooks, c), d)
  {
  }

  lemma AloneStays(calls: map<nat, Call>, id: nat, c': Call)
    requires Alone(calls) && id in calls && KeyOf(c') == KeyOf(calls[id])
    requires AtWork(c') ==> AtWork(calls[id])
    ensures Alone(calls[id := c'])
  {
  }

  lemma OneProcessedStays(hooks: map<HookKey, HookStatus>, calls: map<nat, Call>, id: nat, c': Call)
    requires OneProcessed(calls) && id in calls && KeyOf(c') == KeyOf(calls[id])
    requires c'.phase == Ended(Processed) ==>
      KeyOf(c') in hooks && !hooks[KeyOf(c')].PROCESSED? && forall d :: d in calls ==> InTurn(hooks, calls[d])
    requires forall d :: d in calls && calls[d].phase == Ended(Processed) ==> !calls[d].manual
    ensures OneProcessed(calls[id := c'])
  {
    forall d | d in calls && KeyOf(calls[d]) == KeyOf(c') && c'.phase == Ended(Processed)
      ensures calls[d].phase != Ended(Processed)
    {
      assert InTurn(hooks, calls[d]);
    }
    hide InTurn, KeyOf;
  }

  lemma AllStayInTurn(st: State, id: nat, w: World)
    requires Inv(st) && Sequential(st) && id in st.calls && !st.calls[id].phase.Ended?
    ensures AllInTurn(Proceed(st, id, st.calls[id], w))
  {
    var (c, st') := (st.calls[id], Proceed(st, id, st.calls[id], w));
    assert c.manual ==> Dispatching(c.phase);
    OwnStepInTurn(st, c, w);
    hide Inv, CallAfter, TxsAfter, BooksAfter, HooksAfter, KeyOf, Dispatching, InTurn, OneProcessed;
    forall d | d in st'.calls ensures InTurn(st'.hooks, st'.calls[d]) {
      if d != id && c.manual {
        ManualLeavesHooks(st.hooks, c);
      } else if d != id {
        HooksChangeAtOneKey(st.hooks, c, st.calls[d]);
      }
    }
  }

  lemma ManualLeavesHooks(hooks: map<HookKey, HookStatus>, c: Call)
    requires c.manual && Dispatching(c.phase)
    ensures HooksAfter(hooks, c) == hooks
  {
  }

  lemma TurnKeepsSequential(st: State, id: nat, w: World)
    requires Inv(st) && Sequential(st) && id in st.calls && !st.calls[id].phase.Ended?
    ensures Sequential(Proceed(st, id, st.calls[id], w))
  {
    var c := st.calls[id];
    AllStayInTurn(st, id, w);
    CallKeepsEvent(st, c, w);
    OwnStepInTurn(st, c, w);
    assert InTurn(st.hooks, c);
    assert c.manual ==> Dispatching(c.phase);
    assert forall d :: d in st.calls && st.calls[d].phase == Ended(Processed) ==> !st.calls[d].manual;
    hide Inv, CallAfter, TxsAfter, BooksAfter, HooksAfter, KeyOf, Alone, OneProcessed;
    AloneStays(st.calls, id, CallAfter(st, c, w));
    OneProcessedStays(st.hooks, st.calls, id, CallAfter(st, c, w));
  }

  lemma BeginKeepsSequential(st: State, e: Event)
    requires Inv(st) && Sequential(st) && e.Begin? && e.call !in st.calls
    requires !e.manual ==> Idle(st, HookKey(e.provider, e.event.externalEventId))
    ensures Sequential(Next(st, e))
  {
    hide Inv;
  }

  /** A call fails or crashes: it has its key still, and has not come through by that. */
  lemma BreakingKeepsSequential(st: State, id: nat, c': Call)
    requires Inv(st) && Sequential(st) && id in st.calls && KeyOf(c') == KeyOf(st.calls[id])
    requires InTurn(st.hooks, c') && (AtWork(c') ==> AtWork(st.calls[id]))
    requires c'.phase != Ended(Processed)
    ensures Sequential(SetCall(st, id, c'))
  {
    hide Inv, InTurn, KeyOf, Alone;
    AloneStays(st.calls, id, c');
  }

  lemma FailedInTurn(hooks: map<HookKey, HookStatus>, c: Call)
    requires InTurn(hooks, c) && !c.phase.Ended?
    ensures InTurn(hooks, FailCall(c)) && KeyOf(FailCall(c)) == KeyOf(c)
    ensures FailCall(c).phase != Ended(Processed) && (AtWork(FailCall(c)) ==> AtWork(c))
  {
  }

  lemma NextKeepsSequential(st: State, e: Event)
    requires Inv(st) && Sequential(st)
    requires e.Begin? && !e.manual ==> Idle(st, HookKey(e.provider, e.event.externalEventId))
    ensures Sequential(Next(st, e))
  {
    if e.Begin? {
      if e.call !in st.calls { BeginKeepsSequential(st, e); }
    } else if !OfCall(e) {
      StepMovesOne(st, e);
      hide Inv, InTurn, Next;
    } else if e.call !in st.calls {
      hide Inv, InTurn, Record;
    } else if st.calls[e.call].phase.Ended? {
      EndedStays(st, e, e.call);
      StepMovesOne(st, e);
      assert Next(st, e).calls == st.calls;
      assert Next(st, e).hooks == st.hooks by { hide Inv, InTurn, Sequential, CallAfter, TxsAfter, BooksAfter; }
      hide Inv, InTurn, Next;
    } else if e.Turn? {
      TurnKeepsSequential(st, e.call, e.world);
    } else if e.Fail? {
      FailedInTurn(st.hooks, st.calls[e.call]);
      BreakingKeepsSequential(st, e.call, FailCall(st.calls[e.call]));
    } else {
      BreakingKeepsSequential(st, e.call, st.calls[e.call].(phase := Ended(Stopped)));
    }
  }

  lemma {:induction false} RunKeepsSequential(es: seq<Event>)
    requires Disciplined(es)
    ensures Sequential(Run(Init, es))
  {
    if es != [] {
      hide Inv, Next, Sequential;
      RunKeepsInv(es[..|es| - 1]);
      RunKeepsSequential(es[..|es| - 1]);
      NextKeepsSequential(Run(Init, es[..|es| - 1]), es[|es| - 1]);
    }
  }

  // ---- what a run comes to ----

  /** However calls overlap, fail and repeat: one event at most books a payment, and for what it was. */
  lemma OneBookingPerTransaction(es: seq<Event>, t: nat, i: nat, j: nat)
    requires var st := Run(Init, es); t < |st.txs| && i < |st.books.events| && j < |st.books.events|
    requires var (id, events) := (Run(Init, es).txs[t].id, Run(Init, es).books.events);
             events[i].request.key == events[j].request.key == Some(PaidKey(id))
    ensures i == j && BooksPayment(Run(Init, es).books.events[i].request, Run(Init, es).txs[t])
  {
    RunKeepsInv(es);
    hide Run, Next;
    var st := Run(Init, es);
    var r := st.books.events[i].request;
    KeysIdentifyPayments(st.txs[t].id, st.txs[t].id, "");
    var k :| 0 <= k < |st.txs| && BooksPayment(r, st.txs[k]);
    KeysIdentifyPayments(st.txs[k].id, st.txs[t].id, "");
  }

  /** The call came through with a payment of a transaction. */
  predicate PaymentDone(c: Call) {
    && c.phase in {Ended(Processed), Ended(Confirmed)}
    && c.event.kind.PAYMENT_SUCCEEDED? && c.tx.Some?
  }

  /** A payment whose webhook row is `PROCESSED`, or that was confirmed by hand, is in the books. */
  lemma ProcessedMeansBooked(es: seq<Event>)
    ensures var st := Run(Init, es);
            && (forall k :: k in st.hooks && st.hooks[k].PROCESSED? ==>
                  exists id :: id in st.calls && EndedProcessed(st.calls[id], k))
            && (forall id | id in st.calls && PaymentDone(st.calls[id]) ::
                  st.calls[id].tx.value < |st.txs| && Booked(st.books.events, st.txs[st.calls[id].tx.value].id))
  {
    RunKeepsInv(es);
    hide Run, Next, Booked;
    var st := Run(Init, es);
    forall id | id in st.calls && PaymentDone(st.calls[id])
      ensures st.calls[id].tx.value < |st.txs| && Booked(st.books.events, st.txs[st.calls[id].tx.value].id)
    {
      assert CallOk(st.txs, st.books.events, st.calls[id]);
    }
  }

  /** Deliveries that do not overlap mark a row `PROCESSED` once. */
  lemma ProcessedOnce(es: seq<Event>, c: nat, d: nat)
    requires Disciplined(es) && c in Run(Init, es).calls && d in Run(Init, es).calls
    requires var (a, b) := (Run(Init, es).calls[c], Run(Init, es).calls[d]);
             KeyOf(a) == KeyOf(b) && EndedProcessed(a, KeyOf(a)) && EndedProcessed(b, KeyOf(b))
    ensures c == d && KeyOf(Run(Init, es).calls[c]) in Run(Init, es).hooks
         && Run(Init, es).hooks[KeyOf(Run(Init, es).calls[c])].PROCESSED?
  {
    RunKeepsSequential(es);
    hide Run, Next;
  }

  // ---- renewals, which are not guarded by a key ----

  /** The engine's work is done only past `Advancing`. */
  predicate AdvancedLate(c: Call) {
    c.advanced ==> match c.phase
                   case Recording => true
                   case Publishing => true
                   case MarkingProcessed => true
                   case MarkingFailed => true
                   case Ended(r) => !r.Skipped? && (r.Confirmed? ==> c.manual)
                   case _ => false
  }

  lemma StepKeepsAdvancedLate(st: State, e: Event)
    requires forall id :: id in st.calls ==> AdvancedLate(st.calls[id])
    ensures forall id :: id in Next(st, e).calls ==> AdvancedLate(Next(st, e).calls[id])
  {
    hide HooksAfter, TxsAfter, BooksAfter, Record, FindTx, CanCreate, Truthy, PreActivation, ActiveLike, KeyOf, CallAfter;
    if e.Turn? && e.call in st.calls {
      OwnStepAdvancedLate(st, st.calls[e.call], e.world);
    }
  }

  lemma OwnStepAdvancedLate(st: State, c: Call, w: World)
    requires AdvancedLate(c)
    ensures AdvancedLate(CallAfter(st, c, w))
  {
    hide HooksAfter, TxsAfter, BooksAfter, Record, FindTx, CanCreate, Truthy, PreActivation, ActiveLike, KeyOf;
  }

  lemma {:induction false} RunKeepsAdvancedLate(es: seq<Event>)
    ensures forall id :: id in Run(Init, es).calls ==> AdvancedLate(Run(Init, es).calls[id])
  {
    if es != [] {
      hide Next, AdvancedLate;
      RunKeepsAdvancedLate(es[..|es| - 1]);
      StepKeepsAdvancedLate(Run(Init, es[..|es| - 1]), es[|es| - 1]);
    }
  }

  lemma OneOfTwoBroke(hooks: map<HookKey, HookStatus>, a: Call, b: Call)
    requires !a.manual && !b.manual && KeyOf(a) == KeyOf(b) && a.advanced && b.advanced
    requires InTurn(hooks, a) && InTurn(hooks, b) && AdvancedLate(a) && AdvancedLate(b)
    requires !(AtWork(a) && AtWork(b)) && !(a.phase == Ended(Processed) == b.phase)
    ensures Broke(a) || Broke(b)
  {
  }

  predicate Broke(c: Call) {
    c.phase == Ended(MarkedFailed) || c.phase == Ended(Stopped)
  }

  /** When one event advances its subscription twice, an attempt failed or died after it had advanced it. */
  lemma TwoAdvancesMeanAFailure(es: seq<Event>, c: nat, d: nat)
    requires Disciplined(es) && c != d && c in Run(Init, es).calls && d in Run(Init, es).calls
    requires var (a, b) := (Run(Init, es).calls[c], Run(Init, es).calls[d]);
             !a.manual && !b.manual && KeyOf(a) == KeyOf(b) && a.advanced && b.advanced
    ensures Broke(Run(Init, es).calls[c]) || Broke(Run(Init, es).calls[d])
  {
    RunKeepsSequential(es);
    RunKeepsAdvancedLate(es);
    var st := Run(Init, es);
    hide Run, Next, KeyOf, AdvancedLate, InTurn, Broke, AtWork;
    OneOfTwoBroke(st.hooks, st.calls[c], st.calls[d]);
  }

  // ---- single steps, as the methods take them ----

  lemma SettlingStep(st: State, id: nat, c: Call, w: World)
    requires id in st.calls && st.calls[id] == c && c.phase.Settling?
    ensures Next(st, Turn(id, w))
         == State(st.hooks, Settle(st.txs, c), st.books, st.calls[id := c.(phase := Advancing)])
  {
    hide Settle, KeyOf;
  }

  lemma RecordingStep(st: State, id: nat, c: Call, w: World)
    requires id in st.calls && st.calls[id] == c && c.phase.Recording? && c.tx.Some? && c.tx.value < |st.txs|
    ensures Next(st, Turn(id, w))
         == State(st.hooks, st.txs, Record(st.books, RequestOf(st.txs[c.tx.value], c, w), id, w.integration),
                  st.calls[id := c.(phase := Publishing)])
  {
    hide Record, RequestOf, KeyOf;
  }

  lemma MarkingStep(st: State, id: nat, c: Call, w: World)
    requires id in st.calls && st.calls[id] == c && c.phase.MarkingProcessed?
    ensures Next(st, Turn(id, w))
         == State(st.hooks[KeyOf(c) := PROCESSED], st.txs, st.books, st.calls[id := c.(phase := Ended(Processed))])
  {
    hide KeyOf;
  }

  lemma NothingToRecordStep(st: State, id: nat, c: Call, w: World)
    requires id in st.calls && st.calls[id] == c && c.phase.Recording? && c.tx.None?
    ensures Next(st, Turn(id, w)) == SetCall(st, id, AfterDispatch(c))
  {
    hide Record, RequestOf, KeyOf;
  }
}
