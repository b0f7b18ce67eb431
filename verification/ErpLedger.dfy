/**
 The ERP as the connector's contract describes it: an append-only ledger that answers a request
 whose idempotency key it has already seen with the document it created then.
 */
module ErpLedger {
  import opened Common

  type SyncId = string

  /** The three calls of one charge, in the order the engine makes them. */
  datatype Step = InvoiceStep | ReceiptStep | PaymentStep

  datatype Document =
    | Invoice(customer: string, amountMinor: int, currency: string,
              description: Option<string>, taxMinor: int, discountMinor: int)
    | Receipt(invoiceId: nat, amountMinor: int, currency: string)
    | Payment(receiptId: nat, payMethod: string, reference: Option<string>)

  /** One stored document; its position in the ledger is its id. `owner` names the sync that asked. */
  datatype Entry = Entry(key: string, owner: SyncId, doc: Document)

  type Ledger = seq<Entry>

  function StepOf(d: Document): Step {
    match d
    case Invoice(_, _, _, _, _, _) => InvoiceStep
    case Receipt(_, _, _) => ReceiptStep
    case Payment(_, _, _) => PaymentStep
  }

  function Suffix(k: Step): string {
    match k
    case InvoiceStep => ":invoice"
    case ReceiptStep => ":receipt"
    case PaymentStep => ":payment"
  }

  /** The idempotency key of one call. */
  function KeyFor(s: SyncId, k: Step): string {
    s + Suffix(k)
  }

  /** Two calls share a key only if they are the same step of the same sync, whatever the ids are. */
  lemma KeysIdentifyCalls(s: SyncId, k: Step, s': SyncId, k': Step)
    requires KeyFor(s, k) == KeyFor(s', k')
    ensures s == s' && k == k'
  {
    var key := KeyFor(s, k);
    assert |s| == |s'|;
    assert s == key[..|s|] == s';
    assert key[|s| + 6] == Suffix(k)[6] == Suffix(k')[6];
    assert key[|s| + 7] == Suffix(k)[7] == Suffix(k')[7];
  }

  /** The document an ERP that honours idempotency keys answers `key` with. */
  function Find(l: Ledger, key: string): (r: Option<nat>)
    ensures r.Some? ==> r.value < |l| && l[r.value].key == key
    ensures r.None? <==> forall i :: 0 <= i < |l| ==> l[i].key != key
  {
    if l == [] then None
    else if l[|l| - 1].key == key then Some(|l| - 1)
    else Find(l[..|l| - 1], key)
  }

  /** Handling one request: create the document unless its key is already there. */
  function Post(l: Ledger, e: Entry): (l': Ledger)
    ensures l <= l' && Find(l', e.key).Some?
  {
    if Find(l, e.key).Some? then l else l + [e]
  }

  /** A request whose key has been answered adds nothing, whatever it asks for; no request adds two. */
  lemma PostAnswersOnce(l: Ledger, e: Entry, again: Entry)
    requires again.key == e.key
    ensures Post(Post(l, e), again) == Post(l, e)
    ensures |l| <= |Post(l, e)| <= |l| + 1
    ensures Find(l, e.key).Some? <==> Post(l, e) == l
    ensures Find(l, e.key).None? ==> Find(Post(l, e), e.key) == Some(|l|)
  {
    LastIsFound(l, e);
    hide Find;
  }

  lemma LastIsFound(l: Ledger, e: Entry)
    ensures Find(l + [e], e.key) == Some(|l|)
  {
  }

  /** Document `i` exists and is the `k` document of sync `s`. */
  predicate PostedAt(l: Ledger, i: nat, s: SyncId, k: Step) {
    i < |l| && l[i].owner == s && StepOf(l[i].doc) == k
  }

  /** Documents `i`, `r` and `p` are an invoice of `s`, a receipt on it and a payment on that. */
  predicate ChainAt(l: Ledger, s: SyncId, i: nat, r: nat, p: nat) {
    && PostedAt(l, i, s, InvoiceStep)
    && PostedAt(l, r, s, ReceiptStep) && l[r].doc.invoiceId == i
    && PostedAt(l, p, s, PaymentStep) && l[p].doc.receiptId == r
  }
}
