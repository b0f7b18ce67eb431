/** The webhook endpoint and the manual confirmation, one request at a time, with any await of theirs failing. */
module WebhookService {
  import opened Common
  import FE = FinancialEvents
  import opened Webhooks

  /** How an await ends: with what it reads, or by throwing. */
  datatype Fate = Works(world: World) | Throws

  /** The awaits of one event, in the order of the source. */
  datatype Fates = Fates(look: Fate, create: Fate, subscription: Fate, transaction: Fate, insert: Fate,
                         link: Fate, settle: Fate, advance: Fate, record: Fate, publish: Fate,
                         markProcessed: Fate, markFailed: Fate)

  /** Nobody is at work. */
  ghost predicate Quiet(st: State) {
    forall id :: id in st.calls ==> st.calls[id].phase.Ended?
  }

  ghost predicate QuietBut(st: State, id: nat) {
    id in st.calls && forall d :: d in st.calls && d != id ==> st.calls[d].phase.Ended?
  }

  /** Where a call stands when its dispatch threw, or came to its end. */
  predicate DispatchThrew(c: Call) {
    c.phase == if c.manual then Ended(Stopped) else MarkingFailed
  }

  predicate DispatchDone(c: Call) {
    c.phase == if c.manual then Ended(Confirmed) else MarkingProcessed
  }

  /** The order of the phases. */
  ghost predicate Follows(txs: seq<Transaction>, c: Call, c': Call) {
    && (!c.phase.FindingTransaction? && !c.phase.CreatingTransaction? ==> c'.tx == c.tx)
    && PhaseFollows(txs, c, c')
  }

  predicate Known(txs: seq<Transaction>, c: Call) {
    Truthy(c.event.externalTransactionId)
    && FindTx(txs, c.provider, c.event.externalTransactionId.value).Some?
  }

  ghost predicate PhaseFollows(txs: seq<Transaction>, c: Call, c': Call) {
    match c.phase
    case FindingSubscription => c'.phase.FindingTransaction?
    case FindingTransaction =>
      if Known(txs, c) then c'.phase.Linking? && c'.tx.Some?
      else c'.phase.CreatingTransaction? || c'.phase.Linking?
    case CreatingTransaction => c'.phase.Linking? || DispatchThrew(c')
    case Linking => if c.event.kind.PAYMENT_PENDING? then DispatchDone(c') else c'.phase.Settling?
    case Settling => c'.phase.Advancing?
    case Advancing => c'.phase.Recording?
    case Recording => if c.tx.Some? then c'.phase.Publishing? else DispatchDone(c')
    case Publishing => DispatchDone(c')
    case _ => true
  }

  /** A row that is `PROCESSED` remains so. */
  ghost predicate ProcessedStay(hooks: map<HookKey, HookStatus>, hooks': map<HookKey, HookStatus>) {
    forall k :: k in hooks && hooks[k].PROCESSED? ==> k in hooks' && hooks'[k].PROCESSED?
  }

  predicate InDispatch(p: Phase) {
    && !p.Looking? && !p.Creating? && !p.MarkingProcessed? && !p.MarkingFailed? && !p.Ended?
  }

  lemma PhasesFollow(st: State, c: Call, w: World)
    requires InDispatch(c.phase)
    ensures Follows(st.txs, c, CallAfter(st, c, w))
    ensures c.phase.FindingSubscription? ==> TxsAfter(st.txs, c, w) == st.txs
  {
    hide FindTx, CanCreate, Truthy, PreActivation, ActiveLike;
  }

  lemma FailureThrows(c: Call)
    requires InDispatch(c.phase)
    ensures DispatchThrew(FailCall(c)) && SameEvent(c, FailCall(c))
  {
  }

  /** A step of call `id` inside `dispatch`, which went well or threw. */
  ghost predicate Stepped(st: State, st': State, id: nat, ok: bool) {
    && id in st.calls && id in st'.calls && st'.calls - {id} == st.calls - {id}
    && SameEvent(st.calls[id], st'.calls[id]) && st'.hooks == st.hooks
    && (if ok then Follows(st.txs, st.calls[id], st'.calls[id]) && !DispatchThrew(st'.calls[id])
        else DispatchThrew(st'.calls[id]))
  }

  lemma TurnIsStep(st: State, id: nat, w: World)
    requires id in st.calls && InDispatch(st.calls[id].phase)
    ensures var st' := Next(st, Turn(id, w));
            id in st'.calls && Stepped(st, st', id, !DispatchThrew(st'.calls[id]))
  {
    var c := st.calls[id];
    PhasesFollow(st, c, w);
    CallKeepsEvent(st, c, w);
    assert HooksAfter(st.hooks, c) == st.hooks;
    hide CallAfter, TxsAfter, BooksAfter, HooksAfter, SameEvent, Follows;
    OthersAreTheSame(st.calls, Next(st, Turn(id, w)).calls, id);
  }

  lemma FailureIsStep(st: State, id: nat)
    requires id in st.calls && InDispatch(st.calls[id].phase)
    ensures var st' := Next(st, Fail(id));
            && id in st'.calls && Stepped(st, st', id, false)
            && st' == st.(calls := st.calls[id := FailCall(st.calls[id])])
  {
    FailureThrows(st.calls[id]);
    hide FailCall, SameEvent;
    OthersAreTheSame(st.calls, Next(st, Fail(id)).calls, id);
  }

  lemma OthersStayQuiet(st: State, st': State, id: nat)
    requires QuietBut(st, id) && id in st'.calls && st'.calls - {id} == st.calls - {id}
    ensures QuietBut(st', id)
  {
    forall d | d in st'.calls && d != id ensures st'.calls[d].phase.Ended? {
      assert d in st'.calls - {id};
      assert (st'.calls - {id})[d] == (st.calls - {id})[d];
    }
  }

  function Ids(txs: seq<Transaction>): set<string> {
    set t | t in txs :: t.id
  }

  /** The id a new transaction would get. */
  function NewIds(f: Fates): set<string> {
    if f.insert.Works? then {f.insert.world.newId} else {}
  }

  predicate FreeId(txs: seq<Transaction>, f: Fates) {
    f.insert.Works? && f.insert.world.newId !in Ids(txs)
  }

  /** The dispatch of the event creates a transaction. */
  predicate Creates(txs: seq<Transaction>, c: Call, f: Fates) {
    f.transaction.Works? && Creatable(c, f.transaction.world) && !Known(txs, c)
  }

  predicate UpsertSucceeds(txs: seq<Transaction>, c: Call, f: Fates) {
    f.transaction.Works? && (Creates(txs, c, f) ==> FreeId(txs, f))
  }

  predicate ApplySucceeds(f: Fates, transaction: bool) {
    f.settle.Works? && f.advance.Works? && f.record.Works? && (transaction ==> f.publish.Works?)
  }

  /** The awaits the dispatch comes to all work, and the id of a transaction it creates is free. */
  predicate DispatchSucceeds(txs: seq<Transaction>, c: Call, f: Fates) {
    && f.subscription.Works? && UpsertSucceeds(txs, c, f) && f.link.Works?
    && (c.event.kind.PAYMENT_PENDING? || ApplySucceeds(f, Known(txs, c) || Creates(txs, c, f)))
  }

  predicate NothingThrows(f: Fates) {
    && f.look.Works? && f.create.Works? && f.subscription.Works? && f.transaction.Works? && f.insert.Works?
    && f.link.Works? && f.settle.Works? && f.advance.Works? && f.record.Works? && f.publish.Works?
    && f.markProcessed.Works? && f.markFailed.Works?
  }

  lemma KnownIgnoresOthers(txs: seq<Transaction>, c: Call, c': Call)
    requires SameEvent(c, c')
    ensures Known(txs, c) == Known(txs, c') && forall w :: Creatable(c, w) == Creatable(c', w)
  {
  }

  lemma SucceedsIgnoresOthers(txs: seq<Transaction>, c: Call, c': Call, f: Fates)
    requires SameEvent(c, c')
    ensures UpsertSucceeds(txs, c, f) == UpsertSucceeds(txs, c', f) && Creates(txs, c, f) == Creates(txs, c', f)
    ensures DispatchSucceeds(txs, c, f) == DispatchSucceeds(txs, c', f)
  {
    KnownIgnoresOthers(txs, c, c');
    hide Known, Creatable;
  }

  lemma WorksThroughout(txs: seq<Transaction>, c: Call, f: Fates)
    requires NothingThrows(f) && FreeId(txs, f)
    ensures DispatchSucceeds(txs, c, f)
    ensures f.look.Works? && f.create.Works? && f.markProcessed.Works? && f.markFailed.Works?
  {
    hide Known, Creatable, Ids;
  }

  lemma SameKey(c: Call)
    ensures forall c' :: SameEvent(c, c') ==> KeyOf(c') == KeyOf(c)
  {
  }

  lemma InsertSucceeds(txs: seq<Transaction>, c: Call, w: World)
    requires exists v :: Creatable(c, v) && !Known(txs, c)
    ensures CanCreate(txs, c, w) <==> w.newId !in Ids(txs)
  {
    hide FindTx, Truthy;
    if w.newId in Ids(txs) {
      var t :| t in txs && t.id == w.newId;
      var i :| 0 <= i < |txs| && txs[i] == t;
    } else {
      assert forall i :: 0 <= i < |txs| ==> txs[i] in txs && txs[i].id in Ids(txs);
    }
  }

  lemma SameIds(txs: seq<Transaction>, txs': seq<Transaction>)
    requires |txs'| == |txs| && forall i :: 0 <= i < |txs| ==> txs'[i].id == txs[i].id
    ensures Ids(txs') == Ids(txs)
  {
    forall id | id in Ids(txs) ensures id in Ids(txs') {
      var t :| t in txs && t.id == id;
      var i :| 0 <= i < |txs| && txs[i] == t;
      assert txs'[i] in txs';
    }
    forall id | id in Ids(txs') ensures id in Ids(txs) {
      var t :| t in txs' && t.id == id;
      var i :| 0 <= i < |txs'| && txs'[i] == t;
      assert txs[i] in txs;
    }
  }

  lemma OneMoreId(txs: seq<Transaction>, txs': seq<Transaction>)
    requires |txs'| == |txs| + 1 && txs'[..|txs|] == txs
    ensures Ids(txs') == Ids(txs) + {txs'[|txs|].id}
  {
    assert txs' == txs + [txs'[|txs|]];
  }

  /** A transaction can be made of what the event says, for a customer that was found. */
  predicate Creatable(c: Call, w: World) {
    && Truthy(c.event.externalTransactionId) && c.event.amountMinor.Some? && Truthy(c.event.currency)
    && w.customerFound
  }

  lemma OthersAreTheSame(calls: map<nat, Call>, calls': map<nat, Call>, id: nat)
    requires id in calls && id in calls' && calls' == calls[id := calls'[id]]
    ensures calls' - {id} == calls - {id}
  {
  }

  /**
   The webhook rows, the transactions and the financial events, with the progress of every call. `trace` is
   the run of the machine that the updates amount to.
   */
  class WebhooksService {
    var hooks: map<HookKey, HookStatus>
    var txs: seq<Transaction>
    var books: FE.Tables
    var calls: map<nat, Call>
    ghost var trace: seq<Event>

    function St(): State
      reads this
    {
      State(hooks, txs, books, calls)
    }

    ghost predicate Sound()
      reads this
    {
      St() == Run(Init, trace) && Disciplined(trace)
    }

    /** Between requests. */
    ghost predicate Valid()
      reads this
    {
      Sound() && Quiet(St())
    }

    /** Call `id` is the only one at work. */
    ghost predicate Working(id: nat)
      reads this
    {
      Sound() && QuietBut(St(), id)
    }

    constructor ()
      ensures Valid() && St() == Init
    {
      hooks, txs, books, calls, trace := map[], [], FE.Tables([], [], []), map[], [];
    }

    /** What has been done since `before` was the machine's step `e`. */
    ghost method Did(before: State, e: Event)
      requires before == Run(Init, trace) && Disciplined(trace) && St() == Next(before, e)
      requires e.Begin? && !e.manual ==> Idle(before, HookKey(e.provider, e.event.externalEventId))
      modifies this`trace
      ensures Sound() && trace == old(trace) + [e]
    {
      hide Next;
      assert (trace + [e])[..|trace|] == trace;
      trace := trace + [e];
    }

    /** As `Did`, for a step of call `id` inside `dispatch`. */
    ghost method DidTurn(before: State, id: nat, w: World)
      requires before == Run(Init, trace) && Disciplined(trace) && QuietBut(before, id)
      requires InDispatch(before.calls[id].phase) && St() == Next(before, Turn(id, w))
      modifies this`trace
      ensures Working(id) && id in calls && Stepped(before, St(), id, !DispatchThrew(calls[id]))
      ensures trace == old(trace) + [Turn(id, w)]
    {
      TurnIsStep(before, id, w);
      hide Next, Stepped, Run, Disciplined;
      Did(before, Turn(id, w));
      StepStaysQuiet(before, St(), id, !DispatchThrew(calls[id]));
    }

    /** A request begins. */
    method Start(id: nat, provider: string, organization: string, event: PaymentEvent, manual: bool)
      requires Valid() && id !in calls
      modifies this`calls, this`trace
      ensures Working(id) && id in calls && old(trace) <= trace
      ensures calls[id] == Started(provider, organization, event, manual)
      ensures calls - {id} == old(calls)
    {
      ghost var before := St();
      calls := calls[id := Started(provider, organization, event, manual)];
      hide Run, Disciplined;
      Did(before, Begin(id, provider, organization, event, manual));
    }

    /** The await at which the call stands throws. */
    method Throw(id: nat)
      requires Working(id) && id in calls && InDispatch(calls[id].phase)
      modifies this`calls, this`trace
      ensures Working(id) && id in calls && Stepped(old(St()), St(), id, false) && old(trace) <= trace
    {
      ghost var before := St();
      FailureIsStep(before, id);
      calls := calls[id := FailCall(calls[id])];
      hide Next, Stepped, Run, Disciplined, FailCall;
      Did(before, Fail(id));
      StepStaysQuiet(before, St(), id, false);
    }

    // ---- the awaits of `dispatch` ----

    method FindSubscription(id: nat, fate: Fate) returns (ok: bool)
      requires Working(id) && id in calls && calls[id].phase.FindingSubscription?
      modifies this`calls, this`trace
      ensures Working(id) && id in calls && Stepped(old(St()), St(), id, ok) && old(trace) <= trace
      ensures ok <==> fate.Works?
      ensures ok ==> calls[id].tx == old(calls)[id].tx
      ensures ok ==>
        var named := calls[id].event.externalSubscriptionId;
        calls[id].sub == if named.Some? && named.value != "" then fate.world.subscription else None
    {
      if fate.Throws? {
        Throw(id);
        return false;
      }
      ghost var before := St();
      var c := calls[id];
      calls := calls[id := c.(phase := FindingTransaction,
                              sub := if Truthy(c.event.externalSubscriptionId) then fate.world.subscription else None)];
      hide Run, Disciplined, Stepped, QuietBut, Truthy;
      DidTurn(before, id, fate.world);
      ok := true;
    }

    /** The transaction of the event's reference, or what to do when there is none. */
    method FindExisting(id: nat, fate: Fate) returns (ok: bool)
      requires Working(id) && id in calls && calls[id].phase.FindingTransaction?
      modifies this`calls, this`trace
      ensures Working(id) && id in calls && Stepped(old(St()), St(), id, ok) && old(trace) <= trace
      ensures ok <==> fate.Works?
      ensures ok ==> (calls[id].phase.CreatingTransaction? <==>
                        fate.Works? && Creatable(calls[id], fate.world) && !Known(txs, calls[id]))
      ensures ok && !Known(txs, calls[id]) ==> calls[id].tx == old(calls)[id].tx
      ensures ok ==> calls[id].sub == old(calls)[id].sub
    {
      if fate.Throws? {
        Throw(id);
        return false;
      }
      ghost var before := St();
      var (c, w) := (calls[id], fate.world);
      var c' := c.(phase := Linking);
      if Truthy(c.event.externalTransactionId) {
        var found := FindTx(txs, c.provider, c.event.externalTransactionId.value);
        if found.Some? {
          c' := c'.(tx := found);
        } else if c.event.amountMinor.Some? && Truthy(c.event.currency) && w.customerFound {
          c' := c.(phase := CreatingTransaction);
        }
      }
      calls := calls[id := c'];
      hide Run, Disciplined, Stepped, QuietBut, Truthy, FindTx;
      DidTurn(before, id, w);
      ok := true;
    }

    /** The new transaction; a reference or an id in use makes the insert throw. */
    method InsertTransaction(id: nat, fate: Fate) returns (ok: bool)
      requires Working(id) && id in calls && calls[id].phase.CreatingTransaction?
      modifies this`calls, this`txs, this`trace
      ensures Working(id) && id in calls && Stepped(old(St()), St(), id, ok) && old(trace) <= trace
      ensures ok <==> fate.Works? && CanCreate(old(txs), old(calls)[id], fate.world)
      ensures !ok ==> txs == old(txs)
      ensures ok ==> fate.Works? && calls[id].tx == Some(|old(txs)|)
      ensures ok ==> |txs| == |old(txs)| + 1 && txs[..|old(txs)|] == old(txs)
      ensures ok ==>
        var c := old(calls)[id];
        && c.event.externalTransactionId.Some? && c.event.amountMinor.Some?
        && c.event.currency.Some?
        && txs[|old(txs)|] == Transaction(fate.world.newId, c.provider, c.event.externalTransactionId.value,
                                          if c.sub.Some? then Some(c.sub.value.id) else None,
                                          c.event.amountMinor.value, c.event.currency.value, PENDING)
    {
      if fate.Throws? {
        Throw(id);
        return false;
      }
      ghost var before := St();
      var (c, w) := (calls[id], fate.world);
      ok := CanCreate(txs, c, w);
      if ok {
        calls := calls[id := c.(phase := Linking, tx := Some(|txs|))];
        txs := txs + [NewTx(c, w)];
      } else {
        calls := calls[id := Thrown(c)];
      }
      hide Run, Disciplined, Stepped, QuietBut, CanCreate;
      DidTurn(before, id, w);
    }

    /** The subscription that the transaction names, when the event has led to none. */
    method LinkSubscription(id: nat, fate: Fate) returns (ok: bool)
      requires Working(id) && id in calls && calls[id].phase.Linking?
      modifies this`calls, this`trace
      ensures Working(id) && id in calls && Stepped(old(St()), St(), id, ok) && old(trace) <= trace
      ensures ok <==> fate.Works?
      ensures ok ==>
        var c := old(calls)[id];
        calls[id].sub == if c.sub.None? && c.tx.Some? && c.tx.value < |txs| && txs[c.tx.value].subscription.Some?
                            && fate.world.subscription.Some?
                            && fate.world.subscription.value.id == txs[c.tx.value].subscription.value
                         then fate.world.subscription else c.sub
    {
      if fate.Throws? {
        Throw(id);
        return false;
      }
      ghost var before := St();
      calls := calls[id := Link(txs, calls[id], fate.world)];
      hide Run, Disciplined, Stepped, QuietBut, Link;
      DidTurn(before, id, fate.world);
      LinkingGoesOn(before.txs, before.calls[id], fate.world);
      ok := true;
    }

    /** The transaction's new status; its other columns stay. */
    method SettleTransaction(id: nat, fate: Fate) returns (ok: bool)
      requires Working(id) && id in calls && calls[id].phase.Settling?
      modifies this`calls, this`txs, this`trace
      ensures Working(id) && id in calls && Stepped(old(St()), St(), id, ok) && old(trace) <= trace
      ensures ok <==> fate.Works?
      ensures Ids(txs) == Ids(old(txs))
      ensures |txs| == |old(txs)|
      ensures forall i :: 0 <= i < |txs| && !(ok && calls[id].tx == Some(i)) ==> txs[i] == old(txs)[i]
      ensures ok && calls[id].tx.Some? && calls[id].tx.value < |txs| ==>
        var status := if calls[id].event.kind.PAYMENT_SUCCEEDED? then SUCCEEDED else FAILED_PAYMENT;
        txs[calls[id].tx.value] == old(txs)[calls[id].tx.value].(status := status)
    {
      if fate.Throws? {
        Throw(id);
        return false;
      }
      ghost var before := St();
      var c := calls[id];
      if c.tx.Some? && c.tx.value < |txs| {
        var status := if c.event.kind.PAYMENT_SUCCEEDED? then SUCCEEDED else FAILED_PAYMENT;
        txs := txs[c.tx.value := txs[c.tx.value].(status := status)];
      }
      calls := calls[id := c.(phase := Advancing)];
      assert txs == Settle(before.txs, c);
      SameIds(before.txs, txs);
      SettlingStep(before, id, c, fate.world);
      hide Next, Run, Disciplined, Stepped, QuietBut, Settle;
      DidTurn(before, id, fate.world);
      ok := true;
    }

    /** `recoverOrRenew`: the engine acts on a subscription before its activation or as good as active. */
    method AdvanceSubscription(id: nat, fate: Fate) returns (ok: bool)
      requires Working(id) && id in calls && calls[id].phase.Advancing?
      modifies this`calls, this`trace
      ensures Working(id) && id in calls && Stepped(old(St()), St(), id, ok) && old(trace) <= trace
      ensures ok <==> fate.Works?
      ensures ok ==>
        var c := old(calls)[id];
        && calls[id] == c.(phase := Recording, advanced := calls[id].advanced)
        && (calls[id].advanced <==>
              && c.event.kind.PAYMENT_SUCCEEDED? && c.sub.Some?
              && c.sub.value.status in {INCOMPLETE, TRIALING, SubscriptionStatus.ACTIVE, PAST_DUE, GRACE_PERIOD})
    {
      if fate.Throws? {
        Throw(id);
        return false;
      }
      ghost var before := St();
      calls := calls[id := Advance(calls[id])];
      AdvancingGoesOn(before.calls[id]);
      hide Run, Disciplined, Stepped, QuietBut, Advance;
      DidTurn(before, id, fate.world);
      ok := true;
    }

    /** The financial event of the transaction: it is there afterwards, once. */
    method RecordEvent(id: nat, fate: Fate) returns (ok: bool)
      requires Working(id) && id in calls && calls[id].phase.Recording?
      modifies this`calls, this`books, this`trace
      ensures Working(id) && id in calls && Stepped(old(St()), St(), id, ok) && old(trace) <= trace
      ensures ok <==> fate.Works?
      ensures !ok || calls[id].tx.None? ==> books == old(books)
      ensures ok && calls[id].tx.Some? && calls[id].tx.value < |txs| ==>
        BookedOnce(old(books), books, txs[calls[id].tx.value], calls[id], id, fate.world)
      ensures ok && calls[id].event.kind.PAYMENT_SUCCEEDED? && calls[id].tx.Some? && calls[id].tx.value < |txs| ==>
        Booked(books.events, txs[calls[id].tx.value].id)
    {
      if fate.Throws? {
        Throw(id);
        return false;
      }
      ghost var before := St();
      var (c, w) := (calls[id], fate.world);
      RunKeepsInv(trace);
      assert BooksOk(books) && (c.tx.Some? ==> c.tx.value < |txs|) by {
        hide Run;
        assert CallOk(txs, books.events, c);
      }
      hide Inv, BooksOk;
      if c.tx.Some? {
        RecordingStep(before, id, c, w);
        var request := RequestOf(txs[c.tx.value], c, w);
        RecordWrites(books, request, id, w.integration);
        RequestBooks(txs[c.tx.value], c, w);
        RecordingBooksOnce(books, txs[c.tx.value], c, id, w);
        books := Record(books, request, id, w.integration);
        calls := calls[id := c.(phase := Publishing)];
      } else {
        NothingToRecordStep(before, id, c, w);
        calls := calls[id := AfterDispatch(c)];
      }
      hide Next, Run, Disciplined, Stepped, QuietBut, Record, RequestOf, FE.Find, BookedOnce;
      DidTurn(before, id, w);
      ok := true;
    }

    method Publish(id: nat, fate: Fate) returns (ok: bool)
      requires Working(id) && id in calls && calls[id].phase.Publishing?
      modifies this`calls, this`trace
      ensures Working(id) && id in calls && Stepped(old(St()), St(), id, ok) && old(trace) <= trace
      ensures ok <==> fate.Works?
    {
      if fate.Throws? {
        Throw(id);
        return false;
      }
      ghost var before := St();
      calls := calls[id := AfterDispatch(calls[id])];
      hide Run, Disciplined, Stepped, QuietBut;
      DidTurn(before, id, fate.world);
      ok := true;
    }

    // ---- dispatch ----

    /**
     The transaction of the event: the one that is known by provider and reference, or a new one when the
     event says enough and a customer was found, or none.
     */
    method UpsertTransaction(id: nat, f: Fates) returns (ok: bool)
      requires Working(id) && id in calls && calls[id].phase.FindingTransaction? && calls[id].tx.None?
      modifies this`calls, this`txs, this`trace
      ensures Working(id) && id in calls && Moved(old(St()), St(), id) && old(trace) <= trace
      ensures ok <==> UpsertSucceeds(old(txs), old(calls)[id], f)
      ensures if ok then calls[id].phase.Linking? else DispatchThrew(calls[id])
      ensures ok ==> (calls[id].tx.Some? <==> Known(old(txs), old(calls)[id]) || Creates(old(txs), old(calls)[id], f))
      ensures ok && Creates(old(txs), old(calls)[id], f) ==>
        && |txs| == |old(txs)| + 1 && txs[..|old(txs)|] == old(txs) && calls[id].tx == Some(|old(txs)|)
        && Mirrors(txs[|old(txs)|], old(calls)[id])
      ensures !(ok && Creates(old(txs), old(calls)[id], f)) ==> txs == old(txs)
      ensures Ids(txs) <= Ids(old(txs)) + NewIds(f)
    {
      hide Next, Run, Disciplined, QuietBut, Sound, FindTx, Truthy;
      ghost var (c, before) := (calls[id], txs);
      ok := FindExisting(id, f.transaction);
      if ok {
        KnownIgnoresOthers(before, c, calls[id]);
        if calls[id].phase.CreatingTransaction? {
          if f.insert.Works? {
            InsertSucceeds(before, calls[id], f.insert.world);
          }
          hide Ids, CanCreate;
          ok := InsertTransaction(id, f.insert);
          if ok {
            OneMoreId(before, txs);
          }
        }
      }
    }

    /**
     `dispatch`, for the payment events: it comes to its end exactly when each await it comes to works and
     the id of a transaction it creates is free.
     */
    method Dispatch(id: nat, f: Fates) returns (ok: bool)
      requires Working(id) && id in calls && calls[id].phase.FindingSubscription? && calls[id].tx.None?
      modifies this
      ensures Working(id) && id in calls && Moved(old(St()), St(), id) && old(trace) <= trace
      ensures ok <==> DispatchSucceeds(old(txs), old(calls)[id], f)
      ensures if ok then DispatchDone(calls[id]) else DispatchThrew(calls[id])
      ensures ok ==> (calls[id].tx.Some? <==> Known(old(txs), old(calls)[id]) || Creates(old(txs), old(calls)[id], f))
      ensures Ids(txs) <= Ids(old(txs)) + NewIds(f)
    {
      hide Next, Run, Disciplined, QuietBut, Sound, Known, Mirrors, Creatable, UpsertSucceeds, ApplySucceeds, Ids, NewIds;
      ghost var (c, before) := (calls[id], txs);
      ok := FindSubscription(id, f.subscription);
      if !ok { return; }
      KnownIgnoresOthers(before, c, calls[id]);
      SucceedsIgnoresOthers(before, c, calls[id], f);
      ok := UpsertTransaction(id, f);
      if !ok { return; }
      ok := LinkSubscription(id, f.link);
      if !ok || calls[id].event.kind.PAYMENT_PENDING? { return; }
      ok := Apply(id, f);
    }

    /** The transaction's status, the subscription engine, the books and the platform event. */
    method Apply(id: nat, f: Fates) returns (ok: bool)
      requires Working(id) && id in calls && calls[id].phase.Settling?
      modifies this
      ensures Working(id) && id in calls && Moved(old(St()), St(), id) && old(trace) <= trace
      ensures ok <==> ApplySucceeds(f, old(calls)[id].tx.Some?)
      ensures if ok then DispatchDone(calls[id]) else DispatchThrew(calls[id])
      ensures ok ==> calls[id].tx == old(calls)[id].tx
      ensures Ids(txs) == Ids(old(txs))
    {
      hide Next, Run, Disciplined, QuietBut, Sound, Known, FindTx, Truthy, Booked, BookedOnce, Ids;
      ok := SettleTransaction(id, f.settle);
      if !ok { return; }
      ok := AdvanceSubscription(id, f.advance);
      if !ok { return; }
      ok := RecordAndPublish(id, f);
    }

    /** The books and, when there is a transaction, the platform event. */
    method RecordAndPublish(id: nat, f: Fates) returns (ok: bool)
      requires Working(id) && id in calls && calls[id].phase.Recording?
      modifies this
      ensures Working(id) && id in calls && Moved(old(St()), St(), id) && old(trace) <= trace
      ensures ok <==> f.record.Works? && (old(calls)[id].tx.Some? ==> f.publish.Works?)
      ensures if ok then DispatchDone(calls[id]) else DispatchThrew(calls[id])
      ensures ok ==> calls[id].tx == old(calls)[id].tx
      ensures txs == old(txs)
    {
      hide Next, Run, Disciplined, QuietBut, Sound, Known, FindTx, Truthy, Booked, BookedOnce, Ids;
      var transaction := calls[id].tx;
      ok := RecordEvent(id, f.record);
      if !ok || transaction.None? { return; }
      ok := Publish(id, f.publish);
    }

    // ---- the webhook row ----

    /** What has been done outside `dispatch` was the call's step, or its failure. */
    ghost method DidRow(before: State, id: nat, fate: Fate)
      requires before == Run(Init, trace) && Disciplined(trace) && QuietBut(before, id)
      requires id in before.calls && St() == Next(before, if fate.Works? then Turn(id, fate.world) else Fail(id))
      requires St().calls == before.calls[id := St().calls[id]]
      modifies this`trace
      ensures Working(id) && old(trace) <= trace && calls - {id} == before.calls - {id}
    {
      hide Next, Run, Disciplined;
      Did(before, if fate.Works? then Turn(id, fate.world) else Fail(id));
      OthersAreTheSame(before.calls, calls, id);
      OthersStayQuiet(before, St(), id);
    }

    /** Finds the row of the event or creates it; a call that has ended by then has nothing to dispatch. */
    method FindOrCreateRow(id: nat, f: Fates)
      requires Working(id) && id in calls && calls[id].phase.Looking?
      modifies this`calls, this`hooks, this`trace
      ensures Working(id) && id in calls && calls - {id} == old(calls) - {id}
      ensures RowFound(old(hooks), hooks, old(calls)[id], calls[id], f)
    {
      hide Run, Disciplined, QuietBut, KeyOf;
      ghost var before := St();
      var c := calls[id];
      var k := KeyOf(c);
      KeyReads(c);
      if f.look.Throws? {
        calls := calls[id := c.(phase := Ended(Stopped))];
      } else if k in hooks {
        calls := calls[id := c.(phase := if hooks[k].PROCESSED? then Ended(Skipped) else FindingSubscription)];
      } else {
        calls := calls[id := c.(phase := Creating)];
      }
      DidRow(before, id, f.look);
      if calls[id].phase.Creating? {
        CreateRow(id, f.create);
      }
    }

    method CreateRow(id: nat, fate: Fate)
      requires Working(id) && id in calls && calls[id].phase.Creating? && KeyOf(calls[id]) !in hooks
      modifies this`calls, this`hooks, this`trace
      ensures Working(id) && id in calls && calls - {id} == old(calls) - {id}
      ensures calls[id] == old(calls)[id].(phase := if fate.Works? then FindingSubscription else Ended(Stopped))
      ensures hooks == if fate.Works? then old(hooks)[KeyOf(old(calls)[id]) := VERIFIED] else old(hooks)
    {
      hide Run, Disciplined, QuietBut, KeyOf;
      ghost var before := St();
      var c := calls[id];
      if fate.Works? {
        hooks := hooks[KeyOf(c) := VERIFIED];
        calls := calls[id := c.(phase := FindingSubscription)];
      } else {
        calls := calls[id := c.(phase := Ended(Stopped))];
      }
      DidRow(before, id, fate);
    }

    /** Marks the row after `dispatch`; a failure to mark it `PROCESSED` is a failure of the event too. */
    method MarkRow(id: nat, f: Fates) returns (r: Result)
      requires Working(id) && id in calls && !calls[id].manual
      requires calls[id].phase.MarkingProcessed? || calls[id].phase.MarkingFailed?
      modifies this`calls, this`hooks, this`trace
      ensures Working(id) && id in calls && SameEvent(old(calls)[id], calls[id])
      ensures calls - {id} == old(calls) - {id}
      ensures calls[id].phase == Ended(r) && r in {Processed, MarkedFailed, Stopped}
      ensures r.Processed? <==> old(calls)[id].phase.MarkingProcessed? && f.markProcessed.Works?
      ensures r.Stopped? <==> !r.Processed? && f.markFailed.Throws?
      ensures var k := KeyOf(old(calls)[id]);
              hooks == if r.Processed? then old(hooks)[k := PROCESSED]
                       else if r.MarkedFailed? then old(hooks)[k := FAILED] else old(hooks)
    {
      hide Run, Disciplined, QuietBut, KeyOf;
      var k := KeyOf(calls[id]);
      KeyReads(calls[id]);
      if calls[id].phase.MarkingProcessed? {
        ghost var before := St();
        if f.markProcessed.Works? {
          hooks := hooks[k := PROCESSED];
          calls := calls[id := calls[id].(phase := Ended(Processed))];
        } else {
          calls := calls[id := calls[id].(phase := MarkingFailed)];
        }
        DidRow(before, id, f.markProcessed);
      }
      if calls[id].phase.MarkingFailed? {
        ghost var before := St();
        if f.markFailed.Works? {
          hooks := hooks[k := FAILED];
          calls := calls[id := calls[id].(phase := Ended(MarkedFailed))];
        } else {
          calls := calls[id := calls[id].(phase := Ended(Stopped))];
        }
        DidRow(before, id, f.markFailed);
      }
      r := calls[id].phase.result;
    }

    /** The `try` and its `catch`. */
    method DispatchAndMark(id: nat, f: Fates) returns (r: Result)
      requires Working(id) && id in calls && !calls[id].manual
      requires calls[id].phase.FindingSubscription? && calls[id].tx.None?
      modifies this
      ensures Valid() && id in calls && SameEvent(old(calls)[id], calls[id]) && calls[id].phase == Ended(r)
      ensures calls - {id} == old(calls) - {id}
      ensures r in {Processed, MarkedFailed, Stopped}
      ensures r.Processed? <==> DispatchSucceeds(old(txs), old(calls)[id], f) && f.markProcessed.Works?
      ensures r.Stopped? ==> f.markFailed.Throws?
      ensures var k := KeyOf(old(calls)[id]);
              hooks == if r.Processed? then old(hooks)[k := PROCESSED]
                       else if r.MarkedFailed? then old(hooks)[k := FAILED] else old(hooks)
      ensures Ids(txs) <= Ids(old(txs)) + NewIds(f)
    {
      hide Run, Disciplined, Next, DispatchSucceeds, Ids, NewIds, KeyOf;
      SameKey(calls[id]);
      var ok := Dispatch(id, f);
      r := MarkRow(id, f);
    }

    /**
     The body of the loop over a delivery's events. What was `PROCESSED` is skipped, with nothing changed;
     anything else is dispatched, comes through exactly when every await it comes to works, and otherwise
     leaves its row `FAILED`, unless an await around the dispatch threw.
     */
    method HandleEvent(id: nat, provider: string, organization: string, event: PaymentEvent, f: Fates)
      returns (r: Result)
      requires Valid() && id !in calls
      modifies this
      ensures Valid() && EventDone(old(St()), St(), id, Started(provider, organization, event, false), f, r)
    {
      ghost var (before, c) := (St(), Started(provider, organization, event, false));
      hide Run, Disciplined, Next, DispatchSucceeds, NothingThrows, FreeId, Ids, NewIds, SameEvent, RowFound, EventDone;
      Start(id, provider, organization, event, false);
      FindOrCreateRow(id, f);
      ghost var found := St();
      RowFoundMeans(before.hooks, hooks, c, calls[id], f);
      if calls[id].phase.Ended? {
        r := calls[id].phase.result;
        EventLooked(before, found, id, c, f, r);
      } else {
        r := DispatchAndMark(id, f);
        EventMarked(before, found, St(), id, c, f, r);
      }
    }

    /**
     A delivery: each event in turn, up to an await that throws outside the dispatch. `processed` counts
     the events that came through. When nothing throws these are the events that had not come through
     before, each once, and all have then; delivering again what has all been `PROCESSED` changes nothing.
     */
    method HandleIncoming(provider: string, organization: string, events: seq<PaymentEvent>, fates: seq<Fates>,
                          first: nat)
      returns (received: nat, processed: nat, threw: bool)
      requires Valid() && |fates| == |events|
      requires forall id :: id in calls ==> id < first
      modifies this
      ensures Valid() && received == |events|
      ensures ProcessedStay(old(hooks), hooks)
      ensures !threw ==> Handled(calls, first, |events|)
      ensures RowsWork(fates) ==> !threw
      ensures processed == Came(calls, first, |events|)
      ensures Smooth(fates, old(txs)) ==>
                && !threw && processed == |NewKeys(old(hooks), provider, events, |events|)|
                && EachProcessed(hooks, provider, events)
      ensures AllProcessed(old(hooks), provider, events, fates) ==>
                !threw && processed == 0 && hooks == old(hooks) && txs == old(txs) && books == old(books)
    {
      received, processed, threw := |events|, 0, false;
      var i := 0;
      DeliveryStarts(St(), provider, events, fates, first);
      hide Run, Disciplined, Sound, Quiet, ProcessedStay, Came, Handled, Smooth, SoFar, AllProcessed, Ids, NewIds, NewKeys,
           NothingThrows, FreeId, DispatchSucceeds, SameEvent, Started, IsProcessed,
           EachProcessed, RowsWork, EventDone;
      while i < |events|
        invariant 0 <= i <= |events| && Valid()
        invariant SoFar(old(St()), St(), provider, events, fates, first, i, processed) && Handled(calls, first, i)
      {
        ghost var before := St();
        CallsBelow(old(St()), before, provider, events, fates, first, i, processed);
        var r := HandleEvent(first + i, provider, organization, events[i], fates[i]);
        EventHandled(old(St()), before, St(), provider, organization, events, fates, first, i, processed, r);
        if r.Processed? {
          processed := processed + 1;
        }
        i := i + 1;
        if r.Stopped? {
          threw := true;
          DeliveryStops(old(St()), St(), provider, events, fates, first, i, processed);
          return;
        }
      }
      DeliveryEnds(old(St()), St(), provider, events, fates, first, processed);
    }

    /**
     The manual confirmation of transaction `t`, which dispatches a payment event made from the row itself.
     It comes through exactly when the row has a reference and each await it comes to works, and then the
     payment is in the books.
     */
    method MarkSucceeded(id: nat, t: nat, organization: string, externalSubscription: Option<string>, f: Fates)
      returns (ok: bool)
      requires Valid() && id !in calls && t < |txs|
      modifies this
      ensures Valid() && hooks == old(hooks)
      ensures old(txs)[t].providerTransactionId == "" ==> St() == old(St())
      ensures ok <==> old(txs)[t].providerTransactionId != "" && ConfirmationSucceeds(f)
      ensures ok ==> t < |txs| && Booked(books.events, old(txs)[t].id)
    {
      var row := txs[t];
      if row.providerTransactionId == "" {
        return false;
      }
      var event := PaymentEvent(PAYMENT_SUCCEEDED, "manual_success_" + row.id, externalSubscription,
                                Some(row.providerTransactionId), Some(row.amountMinor), Some(row.currency));
      ghost var before := trace;
      ghost var c := Started(row.provider, organization, event, true);
      assert KnownHere(txs, c, t);
      hide Run, Disciplined, Next, Known;
      Start(id, row.provider, organization, event, true);
      ok := Dispatch(id, f);
      if ok {
        ConfirmedIsBooked(before, trace, id, t);
      }
    }
  }

  /** What names the financial event of call `c` about transaction `t`. */
  function KeyText(t: Transaction, c: Call): string {
    if c.event.kind.PAYMENT_SUCCEEDED? then "payment_succeeded:" + t.id
    else "payment_failed:" + t.id + ":" + c.event.externalEventId
  }

  /** The request is about the transaction and what the call reports of it. */
  predicate Reports(r: FE.Request, t: Transaction, c: Call, w: World) {
    var initial := c.sub.Some? && c.sub.value.status in {INCOMPLETE, TRIALING};
    && r.organization == c.organization && r.key == Some(KeyText(t, c))
    && r.payload.transaction == Some(t.id) && r.payload.amountMinor == Some(t.amountMinor)
    && r.payload.currency == Some(t.currency)
    && (c.event.kind.PAYMENT_SUCCEEDED? ==>
          && r.kind == (if initial then "SUBSCRIPTION_ACTIVATED" else "SUBSCRIPTION_RENEWED")
          && (w.manualProvider ==> r.payload.reason == "manual_confirmation")
          && (!w.manualProvider ==> r.payload.reason == if initial then "initial_payment" else "renewal"))
    && (!c.event.kind.PAYMENT_SUCCEEDED? ==> r.kind == "PAYMENT_FAILED" && r.payload.reason == "payment_failed")
    && (c.sub.Some? ==> r.refs == c.sub.value.id)
  }

  /** One event with its queue and sync rows is added, unless an event has its key already. */
  ghost predicate BookedOnce(books: FE.Tables, books': FE.Tables, t: Transaction, c: Call, id: nat, w: World) {
    var n := |books.events|;
    if exists i :: 0 <= i < n && books.events[i].request.key == Some(KeyText(t, c)) then books' == books
    else
      && |books'.events| == n + 1 && books'.events[..n] == books.events
      && books'.events[n].author == id && Reports(books'.events[n].request, t, c, w)
      && books'.queue == books.queue + [n] && books'.syncs == books.syncs + [FE.SyncEntry(n, w.integration)]
  }

  lemma RequestReports(t: Transaction, c: Call, w: World)
    ensures Reports(RequestOf(t, c, w), t, c, w)
  {
  }

  lemma RecordingBooksOnce(books: FE.Tables, t: Transaction, c: Call, id: nat, w: World)
    requires BooksOk(books)
    ensures BookedOnce(books, Record(books, RequestOf(t, c, w), id, w.integration), t, c.(phase := Publishing), id, w)
  {
    var r := RequestOf(t, c, w);
    RequestReports(t, c, w);
    hide RequestOf;
    assert Reports(r, t, c.(phase := Publishing), w);
    FE.OnlyTheKeyCollides(books, r, id, w.integration);
    hide FE.Transaction, FE.Find, Reports, KeyText;
  }

  /** The awaits of a confirmation, whose transaction is known. */
  predicate ConfirmationSucceeds(f: Fates) {
    && f.subscription.Works? && f.transaction.Works? && f.link.Works? && f.settle.Works? && f.advance.Works?
    && f.record.Works? && f.publish.Works?
  }

  /** The row of call `c` has been found or created, or the call has ended. */
  ghost predicate RowFound(hooks: map<HookKey, HookStatus>, hooks': map<HookKey, HookStatus>, c: Call, c': Call,
                           f: Fates) {
    var k := KeyOf(c);
    && SameEvent(c, c') && c'.tx == c.tx && c'.phase in {FindingSubscription, Ended(Skipped), Ended(Stopped)}
    && hooks' == (if c'.phase.FindingSubscription? && k !in hooks then hooks[k := VERIFIED] else hooks)
    && (c'.phase == Ended(Skipped) <==> f.look.Works? && IsProcessed(hooks, k))
    && (c'.phase == Ended(Stopped) <==> f.look.Throws? || (k !in hooks && f.create.Throws?))
  }

  lemma RowFoundMeans(hooks: map<HookKey, HookStatus>, hooks': map<HookKey, HookStatus>, c: Call, c': Call, f: Fates)
    requires RowFound(hooks, hooks', c, c', f)
    ensures !c'.phase.Ended? ==> c'.phase.FindingSubscription? && c'.tx == c.tx && c'.manual == c.manual
  {
  }

  lemma EventLooked(st: State, st': State, id: nat, c: Call, f: Fates, r: Result)
    requires id in st'.calls && st'.calls - {id} == st.calls && RowFound(st.hooks, st'.hooks, c, st'.calls[id], f)
    requires st'.calls[id].phase == Ended(r) && st'.txs == st.txs && st'.books == st.books
    ensures EventDone(st, st', id, c, f, r)
  {
    if NothingThrows(f) && FreeId(st.txs, f) {
      WorksThroughout(st.txs, c, f);
    }
    hide NothingThrows, FreeId, DispatchSucceeds, Ids, NewIds, SameEvent, KeyOf;
  }

  lemma EventMarked(st: State, found: State, st': State, id: nat, c: Call, f: Fates, r: Result)
    requires id in found.calls && found.calls - {id} == st.calls && found.txs == st.txs
    requires found.calls[id].phase.FindingSubscription? && RowFound(st.hooks, found.hooks, c, found.calls[id], f)
    requires id in st'.calls && st'.calls - {id} == found.calls - {id} && SameEvent(found.calls[id], st'.calls[id])
    requires st'.calls[id].phase == Ended(r) && r in {Processed, MarkedFailed, Stopped}
    requires r.Processed? <==> DispatchSucceeds(found.txs, found.calls[id], f) && f.markProcessed.Works?
    requires r.Stopped? ==> f.markFailed.Throws?
    requires var k := KeyOf(found.calls[id]);
             st'.hooks == if r.Processed? then found.hooks[k := PROCESSED]
                          else if r.MarkedFailed? then found.hooks[k := FAILED] else found.hooks
    requires Ids(st'.txs) <= Ids(found.txs) + NewIds(f)
    ensures EventDone(st, st', id, c, f, r)
  {
    SucceedsIgnoresOthers(st.txs, c, found.calls[id], f);
    SameKey(c);
    if NothingThrows(f) && FreeId(st.txs, f) {
      WorksThroughout(st.txs, c, f);
    }
    assert SameEvent(c, st'.calls[id]);
    hide NothingThrows, FreeId, DispatchSucceeds, Ids, NewIds, SameEvent, KeyOf;
    assert f.look.Works? && !IsProcessed(st.hooks, KeyOf(c)) && (KeyOf(c) in st.hooks || f.create.Works?);
  }

  /** Call `id`, which began as `c`, has been worked off from `st` to `st'`, and ended with `r`. */
  ghost predicate EventDone(st: State, st': State, id: nat, c: Call, f: Fates, r: Result) {
    var k := KeyOf(c);
    && id in st'.calls && st'.calls[id].phase == Ended(r) && SameEvent(c, st'.calls[id])
    && st'.calls - {id} == st.calls && r in {Skipped, Processed, MarkedFailed, Stopped}
    && (r.Skipped? <==> f.look.Works? && IsProcessed(st.hooks, k))
    && (r.Processed? <==>
          && f.look.Works? && !IsProcessed(st.hooks, k) && (k in st.hooks || f.create.Works?)
          && DispatchSucceeds(st.txs, c, f) && f.markProcessed.Works?)
    && (r.Stopped? ==> f.look.Throws? || (k !in st.hooks && f.create.Throws?) || f.markFailed.Throws?)
    && (r.Skipped? ==> st'.hooks == st.hooks && st'.txs == st.txs && st'.books == st.books)
    && (r.Processed? ==> st'.hooks == st.hooks[k := PROCESSED])
    && (r.MarkedFailed? ==> st'.hooks == st.hooks[k := FAILED])
    && (r.Stopped? ==> st'.hooks == st.hooks || st'.hooks == st.hooks[k := VERIFIED])
    && (NothingThrows(f) && FreeId(st.txs, f) ==> r in {Skipped, Processed})
    && Ids(st'.txs) <= Ids(st.txs) + NewIds(f)
    && ProcessedStay(st.hooks, st'.hooks)
  }

  /** Several steps of call `id`: its event stays, and so do other calls and the webhook rows. */
  ghost predicate Moved(st: State, st': State, id: nat) {
    && id in st.calls && id in st'.calls && SameEvent(st.calls[id], st'.calls[id])
    && st'.calls - {id} == st.calls - {id} && st'.hooks == st.hooks
  }

  /** Transaction `t` says what the event of call `c` says, for the subscription found. */
  predicate Mirrors(t: Transaction, c: Call) {
    && t.provider == c.provider && Some(t.providerTransactionId) == c.event.externalTransactionId
    && Some(t.amountMinor) == c.event.amountMinor && Some(t.currency) == c.event.currency
    && t.subscription == (if c.sub.Some? then Some(c.sub.value.id) else None) && t.status == PENDING
  }

  lemma StepStaysQuiet(st: State, st': State, id: nat, ok: bool)
    requires QuietBut(st, id) && Stepped(st, st', id, ok)
    ensures QuietBut(st', id)
  {
    hide Follows, SameEvent;
    OthersStayQuiet(st, st', id);
  }

  lemma LinkingGoesOn(txs: seq<Transaction>, c: Call, w: World)
    requires c.phase.Linking?
    ensures !DispatchThrew(Link(txs, c, w))
  {
  }

  lemma AdvancingGoesOn(c: Call)
    ensures !DispatchThrew(Advance(c))
  {
  }

  lemma KeyReads(c: Call)
    ensures forall phase :: KeyOf(c.(phase := phase)) == KeyOf(c)
  {
  }

  /** The event that is made from transaction `t` finds a transaction. */
  predicate KnownHere(txs: seq<Transaction>, c: Call, t: nat)
    ensures KnownHere(txs, c, t) ==> Known(txs, c)
  {
    && t < |txs| && Truthy(c.event.externalTransactionId)
    && Named(txs[t], c.provider, c.event.externalTransactionId.value)
  }

  /** Transactions keep their places and their ids through a run. */
  lemma {:induction false} TransactionsStay(es: seq<Event>, more: seq<Event>)
    requires es <= more
    ensures Grows(Run(Init, es).txs, Run(Init, more).txs)
  {
    hide Next, Inv;
    if es != more {
      var before := more[..|more| - 1];
      TransactionsStay(es, before);
      RunKeepsInv(before);
      StepKeepsTables(Run(Init, before), more[|more| - 1]);
    }
  }

  lemma ConfirmedIsBooked(es: seq<Event>, more: seq<Event>, id: nat, t: nat)
    requires es <= more && t < |Run(Init, es).txs| && id in Run(Init, more).calls
    requires var (c, row) := (Run(Init, more).calls[id], Run(Init, es).txs[t]);
             && c.phase == Ended(Confirmed) && c.event.kind.PAYMENT_SUCCEEDED? && c.tx.Some?
             && c.provider == row.provider && c.event.externalTransactionId == Some(row.providerTransactionId)
    ensures t < |Run(Init, more).txs| && Booked(Run(Init, more).books.events, Run(Init, es).txs[t].id)
  {
    TransactionsStay(es, more);
    RunKeepsInv(more);
    hide Run, Booked;
    var st := Run(Init, more);
    assert SameTx(Run(Init, es).txs[t], st.txs[t]);
    assert CallOk(st.txs, st.books.events, st.calls[id]);
  }

  predicate IsProcessed(hooks: map<HookKey, HookStatus>, k: HookKey) {
    k in hooks && hooks[k].PROCESSED?
  }

  ghost predicate EachProcessed(hooks: map<HookKey, HookStatus>, provider: string, events: seq<PaymentEvent>) {
    forall i :: 0 <= i < |events| ==> IsProcessed(hooks, HookKey(provider, events[i].externalEventId))
  }

  /** No await around the dispatch throws. */
  ghost predicate RowsWork(fates: seq<Fates>) {
    forall i :: 0 <= i < |fates| ==> fates[i].look.Works? && fates[i].create.Works? && fates[i].markFailed.Works?
  }

  /** Nothing throws in the delivery, and new ids are free and differ. */
  ghost predicate Smooth(fates: seq<Fates>, txs: seq<Transaction>) {
    && (forall i :: 0 <= i < |fates| ==> NothingThrows(fates[i]) && FreeId(txs, fates[i]))
    && (forall i, j :: 0 <= i < j < |fates| ==> NewIds(fates[i]) !! NewIds(fates[j]))
  }

  function KeyAt(provider: string, events: seq<PaymentEvent>, i: nat): HookKey
    requires i < |events|
  {
    HookKey(provider, events[i].externalEventId)
  }

  /** The keys of the first `n` events, but for those that were `PROCESSED` before. */
  function NewKeys(hooks: map<HookKey, HookStatus>, provider: string, events: seq<PaymentEvent>, n: nat): set<HookKey>
    requires n <= |events|
  {
    set i: nat | i < n && !IsProcessed(hooks, KeyAt(provider, events, i)) :: KeyAt(provider, events, i)
  }

  /** After `n` events: what is `PROCESSED` was so before or is one of theirs, and the ids are theirs or old. */
  ghost predicate SmoothSoFar(hooks: map<HookKey, HookStatus>, hooks': map<HookKey, HookStatus>,
                              txs: seq<Transaction>, txs': seq<Transaction>, provider: string,
                              events: seq<PaymentEvent>, fates: seq<Fates>, n: nat)
    requires n <= |events| == |fates|
  {
    && (forall k :: IsProcessed(hooks', k) <==> IsProcessed(hooks, k) || k in NewKeys(hooks, provider, events, n))
    && (forall id :: id in Ids(txs') ==> id in Ids(txs) || exists i :: 0 <= i < n && id in NewIds(fates[i]))
  }

  lemma SmoothStarts(hooks: map<HookKey, HookStatus>, txs: seq<Transaction>, provider: string,
                     events: seq<PaymentEvent>, fates: seq<Fates>)
    requires |events| == |fates|
    ensures SmoothSoFar(hooks, hooks, txs, txs, provider, events, fates, 0)
    ensures NewKeys(hooks, provider, events, 0) == {}
  {
    hide IsProcessed, Ids, NewIds;
  }

  lemma EventIsSmooth(hooks: map<HookKey, HookStatus>, hooks': map<HookKey, HookStatus>, txs: seq<Transaction>,
                      txs': seq<Transaction>, provider: string, events: seq<PaymentEvent>, fates: seq<Fates>, n: nat)
    requires n < |events| == |fates|
    requires Smooth(fates, txs) ==> SmoothSoFar(hooks, hooks', txs, txs', provider, events, fates, n)
    ensures Smooth(fates, txs) ==> NothingThrows(fates[n]) && FreeId(txs', fates[n]) && fates[n].look.Works?
  {
    hide Ids, NewKeys;
    if Smooth(fates, txs) {
      assert NothingThrows(fates[n]) && FreeId(txs, fates[n]);
      var id := fates[n].insert.world.newId;
      assert id in NewIds(fates[n]);
      forall i | 0 <= i < n ensures id !in NewIds(fates[i]) {
        assert NewIds(fates[i]) !! NewIds(fates[n]);
      }
      assert id !in Ids(txs');
    }
  }

  /** At the end of such a delivery the key of each event is `PROCESSED`. */
  lemma AllCameThrough(hooks: map<HookKey, HookStatus>, hooks': map<HookKey, HookStatus>, txs: seq<Transaction>,
                       txs': seq<Transaction>, provider: string, events: seq<PaymentEvent>, fates: seq<Fates>)
    requires |events| == |fates| && SmoothSoFar(hooks, hooks', txs, txs', provider, events, fates, |events|)
    ensures EachProcessed(hooks', provider, events)
  {
    hide IsProcessed, Ids, NewIds;
    forall i | 0 <= i < |events| ensures IsProcessed(hooks', HookKey(provider, events[i].externalEventId)) {
      var k := KeyAt(provider, events, i);
      assert IsProcessed(hooks, k) || k in NewKeys(hooks, provider, events, |events|);
    }
  }

  lemma StayingProcessed(hooks: map<HookKey, HookStatus>, hooks': map<HookKey, HookStatus>,
                         hooks'': map<HookKey, HookStatus>)
    requires ProcessedStay(hooks, hooks') && ProcessedStay(hooks', hooks'')
    ensures ProcessedStay(hooks, hooks'')
  {
  }

  lemma OneMoreKey(hooks: map<HookKey, HookStatus>, provider: string, events: seq<PaymentEvent>, n: nat)
    requires n < |events|
    ensures var k := KeyAt(provider, events, n);
            NewKeys(hooks, provider, events, n + 1)
            == NewKeys(hooks, provider, events, n) + if IsProcessed(hooks, k) then {} else {k}
  {
    hide IsProcessed;
    var (k, keys, more) := (KeyAt(provider, events, n), NewKeys(hooks, provider, events, n), NewKeys(hooks, provider, events, n + 1));
    forall x | x in more ensures x in keys || x == k {
      var i: nat :| i < n + 1 && !IsProcessed(hooks, KeyAt(provider, events, i)) && x == KeyAt(provider, events, i);
    }
    forall x | x in keys ensures x in more {
      var i: nat :| i < n && !IsProcessed(hooks, KeyAt(provider, events, i)) && x == KeyAt(provider, events, i);
    }
  }

  lemma OneMoreSmooth(hooks: map<HookKey, HookStatus>, rows: map<HookKey, HookStatus>, rows': map<HookKey, HookStatus>,
                      txs: seq<Transaction>, now: seq<Transaction>, now': seq<Transaction>, provider: string,
                      events: seq<PaymentEvent>, fates: seq<Fates>, n: nat, r: Result)
    requires n < |events| == |fates|
    requires SmoothSoFar(hooks, rows, txs, now, provider, events, fates, n)
    requires r in {Skipped, Processed}
    requires var k := KeyAt(provider, events, n);
             && (r.Skipped? <==> IsProcessed(rows, k))
             && rows' == (if r.Skipped? then rows else rows[k := PROCESSED])
    requires Ids(now') <= Ids(now) + NewIds(fates[n])
    ensures SmoothSoFar(hooks, rows', txs, now', provider, events, fates, n + 1)
    ensures |NewKeys(hooks, provider, events, n + 1)|
         == |NewKeys(hooks, provider, events, n)| + if r.Processed? then 1 else 0
  {
    hide Ids, NewIds, NewKeys;
    var (k, keys) := (KeyAt(provider, events, n), NewKeys(hooks, provider, events, n));
    OneMoreKey(hooks, provider, events, n);
    assert IsProcessed(rows, k) <==> IsProcessed(hooks, k) || k in keys;
    forall x ensures IsProcessed(rows', x) <==> IsProcessed(hooks, x) || x in NewKeys(hooks, provider, events, n + 1) {
      assert IsProcessed(rows, x) <==> IsProcessed(hooks, x) || x in keys;
    }
    forall id | id in Ids(now') ensures id in Ids(txs) || exists i :: 0 <= i < n + 1 && id in NewIds(fates[i]) {
      assert id in Ids(now) || id in NewIds(fates[n]);
    }
    if r.Skipped? {
      assert keys + (if IsProcessed(hooks, k) then {} else {k}) == keys;
    }
  }

  /** When nothing throws, `processed` counts the keys that were not `PROCESSED` before. */
  ghost predicate Smoothly(hooks: map<HookKey, HookStatus>, hooks': map<HookKey, HookStatus>,
                           txs: seq<Transaction>, txs': seq<Transaction>, provider: string,
                           events: seq<PaymentEvent>, fates: seq<Fates>, n: nat, processed: nat)
    requires n <= |events| == |fates|
  {
    Smooth(fates, txs) ==>
      && SmoothSoFar(hooks, hooks', txs, txs', provider, events, fates, n)
      && processed == |NewKeys(hooks, provider, events, n)|
  }

  lemma SmoothGoesOn(hooks: map<HookKey, HookStatus>, rows: map<HookKey, HookStatus>, rows': map<HookKey, HookStatus>,
                     txs: seq<Transaction>, now: seq<Transaction>, now': seq<Transaction>, provider: string,
                     events: seq<PaymentEvent>, fates: seq<Fates>, n: nat, processed: nat, r: Result)
    requires n < |events| == |fates|
    requires Smoothly(hooks, rows, txs, now, provider, events, fates, n, processed)
    requires NothingThrows(fates[n]) && FreeId(now, fates[n]) ==> r in {Skipped, Processed}
    requires var k := HookKey(provider, events[n].externalEventId);
             && (fates[n].look.Works? ==> (r.Skipped? <==> k in rows && rows[k].PROCESSED?))
             && (r.Skipped? ==> rows' == rows) && (r.Processed? ==> rows' == rows[k := PROCESSED])
    requires Ids(now') <= Ids(now) + NewIds(fates[n])
    ensures Smoothly(hooks, rows', txs, now', provider, events, fates, n + 1, processed + if r.Processed? then 1 else 0)
    ensures Smooth(fates, txs) ==> !r.Stopped?
  {
    if Smooth(fates, txs) {
      EventIsSmooth(hooks, rows, txs, now, provider, events, fates, n);
      hide Smooth, SmoothSoFar, NewKeys, Ids, NewIds, NothingThrows, FreeId;
      OneMoreSmooth(hooks, rows, rows', txs, now, now', provider, events, fates, n, r);
    }
  }

  /** Every event of the delivery came through before, and can be looked up. */
  ghost predicate AllProcessed(hooks: map<HookKey, HookStatus>, provider: string, events: seq<PaymentEvent>,
                               fates: seq<Fates>)
    requires |fates| == |events|
  {
    EachProcessed(hooks, provider, events) && forall i :: 0 <= i < |fates| ==> fates[i].look.Works?
  }

  /** Redelivery of what has all come through has changed nothing so far. */
  ghost predicate NothingNew(st: State, st': State, provider: string, events: seq<PaymentEvent>, fates: seq<Fates>,
                             processed: nat)
    requires |fates| == |events|
  {
    AllProcessed(st.hooks, provider, events, fates) ==>
      processed == 0 && st'.hooks == st.hooks && st'.txs == st.txs && st'.books == st.books
  }

  lemma NothingNewGoesOn(st: State, now: State, now': State, provider: string, events: seq<PaymentEvent>,
                         fates: seq<Fates>, n: nat, processed: nat, r: Result)
    requires n < |events| == |fates| && NothingNew(st, now, provider, events, fates, processed)
    requires var k := HookKey(provider, events[n].externalEventId);
             fates[n].look.Works? ==> (r.Skipped? <==> k in now.hooks && now.hooks[k].PROCESSED?)
    requires r.Skipped? ==> now'.hooks == now.hooks && now'.txs == now.txs && now'.books == now.books
    ensures NothingNew(st, now', provider, events, fates, processed + if r.Processed? then 1 else 0)
    ensures AllProcessed(st.hooks, provider, events, fates) ==> r.Skipped?
  {
    assert AllProcessed(st.hooks, provider, events, fates) ==>
             fates[n].look.Works? && IsProcessed(st.hooks, HookKey(provider, events[n].externalEventId));
  }

  /** What holds after `n` events, none of which threw but perhaps the last. */
  ghost predicate SoFar(st: State, st': State, provider: string, events: seq<PaymentEvent>, fates: seq<Fates>,
                        first: nat, n: nat, processed: nat)
    requires n <= |events| == |fates|
  {
    && ProcessedStay(st.hooks, st'.hooks) && (forall id :: id in st'.calls ==> id < first + n)
    && processed == Came(st'.calls, first, n)
    && Smoothly(st.hooks, st'.hooks, st.txs, st'.txs, provider, events, fates, n, processed)
    && NothingNew(st, st', provider, events, fates, processed)
  }

  lemma DeliveryStarts(st: State, provider: string, events: seq<PaymentEvent>, fates: seq<Fates>, first: nat)
    requires |events| == |fates| && forall id :: id in st.calls ==> id < first
    ensures SoFar(st, st, provider, events, fates, first, 0, 0) && Handled(st.calls, first, 0)
  {
    SmoothStarts(st.hooks, st.txs, provider, events, fates);
    hide SmoothSoFar, NewKeys, Smooth, AllProcessed;
  }

  lemma CallsBelow(st: State, st': State, provider: string, events: seq<PaymentEvent>, fates: seq<Fates>, first: nat,
                   n: nat, processed: nat)
    requires n <= |events| == |fates| && SoFar(st, st', provider, events, fates, first, n, processed)
    ensures first + n !in st'.calls
  {
  }

  lemma EventHandled(st: State, now: State, now': State, provider: string, organization: string,
                     events: seq<PaymentEvent>, fates: seq<Fates>, first: nat, n: nat, processed: nat, r: Result)
    requires n < |events| == |fates| && SoFar(st, now, provider, events, fates, first, n, processed)
    requires EventDone(now, now', first + n, Started(provider, organization, events[n], false), fates[n], r)
    ensures SoFar(st, now', provider, events, fates, first, n + 1, processed + if r.Processed? then 1 else 0)
    ensures Handled(now.calls, first, n) && !r.Stopped? ==> Handled(now'.calls, first, n + 1)
    ensures RowsWork(fates) || Smooth(fates, st.txs) || AllProcessed(st.hooks, provider, events, fates) ==> !r.Stopped?
  {
    hide ProcessedStay, Came, Handled, Smoothly, Smooth, AllProcessed, NothingNew, FreeId, NothingThrows, Ids, NewIds,
         DispatchSucceeds, SameEvent;
    OneMore(now.calls, now'.calls, first, n);
    StayingProcessed(st.hooks, now.hooks, now'.hooks);
    SmoothGoesOn(st.hooks, now.hooks, now'.hooks, st.txs, now.txs, now'.txs, provider, events, fates, n, processed, r);
    NothingNewGoesOn(st, now, now', provider, events, fates, n, processed, r);
  }

  lemma DeliveryStops(st: State, st': State, provider: string, events: seq<PaymentEvent>, fates: seq<Fates>,
                      first: nat, n: nat, processed: nat)
    requires n <= |events| == |fates| && SoFar(st, st', provider, events, fates, first, n, processed)
    ensures ProcessedStay(st.hooks, st'.hooks) && processed == Came(st'.calls, first, |events|)
  {
    NoneFurther(st'.calls, first, n, |events|);
  }

  lemma DeliveryEnds(st: State, st': State, provider: string, events: seq<PaymentEvent>, fates: seq<Fates>,
                     first: nat, processed: nat)
    requires |events| == |fates| && SoFar(st, st', provider, events, fates, first, |events|, processed)
    ensures ProcessedStay(st.hooks, st'.hooks) && processed == Came(st'.calls, first, |events|)
    ensures Smooth(fates, st.txs) ==>
              && processed == |NewKeys(st.hooks, provider, events, |events|)|
              && EachProcessed(st'.hooks, provider, events)
    ensures AllProcessed(st.hooks, provider, events, fates) ==>
              processed == 0 && st'.hooks == st.hooks && st'.txs == st.txs && st'.books == st.books
  {
    hide SmoothSoFar, NewKeys, Smooth, AllProcessed, IsProcessed, ProcessedStay, Came;
    if Smooth(fates, st.txs) {
      AllCameThrough(st.hooks, st'.hooks, st.txs, st'.txs, provider, events, fates);
    }
  }

  /** How many of the calls from `first` on came through. */
  function Came(calls: map<nat, Call>, first: nat, n: nat): nat {
    if n == 0 then 0
    else Came(calls, first, n - 1)
         + if first + n - 1 in calls && calls[first + n - 1].phase == Ended(Processed) then 1 else 0
  }

  /** Each of the calls ended in one of the three ways that do not throw. */
  ghost predicate Handled(calls: map<nat, Call>, first: nat, n: nat) {
    forall id :: first <= id < first + n ==>
      id in calls && calls[id].phase in {Ended(Skipped), Ended(Processed), Ended(MarkedFailed)}
  }

  lemma OneMore(calls: map<nat, Call>, calls': map<nat, Call>, first: nat, n: nat)
    requires first + n in calls' && calls' - {first + n} == calls
    requires forall d :: d in calls ==> d < first + n
    ensures Came(calls', first, n + 1)
         == Came(calls, first, n) + if calls'[first + n].phase == Ended(Processed) then 1 else 0
    ensures forall d :: d in calls' ==> d < first + n + 1
    ensures Handled(calls, first, n) && calls'[first + n].phase in {Ended(Skipped), Ended(Processed), Ended(MarkedFailed)}
            ==> Handled(calls', first, n + 1)
  {
    forall d | d in calls' ensures d == first + n || d in calls {
      if d != first + n { assert d in calls' - {first + n}; }
    }
    forall d | d in calls ensures d in calls' && calls'[d] == calls[d] {
      assert d in calls' - {first + n};
    }
    CameBefore(calls, calls', first, n);
    assert first + (n + 1) - 1 == first + n;
  }

  lemma {:induction false} CameBefore(calls: map<nat, Call>, calls': map<nat, Call>, first: nat, n: nat)
    requires forall d :: d in calls ==> d in calls' && calls'[d] == calls[d]
    requires forall d :: d in calls' && d < first + n ==> d in calls
    ensures Came(calls', first, n) == Came(calls, first, n)
  {
    if n > 0 { CameBefore(calls, calls', first, n - 1); }
  }

  lemma {:induction false} NoneFurther(calls: map<nat, Call>, first: nat, m: nat, n: nat)
    requires m <= n && forall d :: d in calls ==> d < first + m
    ensures Came(calls, first, n) == Came(calls, first, m)
    decreases n
  {
    if m < n { NoneFurther(calls, first, m, n - 1); }
  }
}
