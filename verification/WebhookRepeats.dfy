/** When a further delivery of an event acts again: the exact conditions, at the moment it begins. */
module WebhookRepeats {
  import opened Common
  import FE = FinancialEvents
  import opened Webhooks

  predicate IsProcessed(hooks: map<HookKey, HookStatus>, k: HookKey) {
    k in hooks && hooks[k].PROCESSED?
  }

  // ---- a PROCESSED row is shut ----

  /** The row is `PROCESSED`, and whoever is at work on it has still to look at it. */
  ghost predicate Shut(st: State, k: HookKey) {
    && IsProcessed(st.hooks, k)
    && forall id :: id in st.calls && AtWork(st.calls[id]) && KeyOf(st.calls[id]) == k ==>
         st.calls[id].phase.Looking?
  }

  /** A delivery that has done nothing, and if it has ended has done so at its look. */
  predicate Unserved(c: Call) {
    !c.advanced && (c.phase.Looking? || c.phase == Ended(Skipped) || c.phase == Ended(Stopped))
  }

  predicate DeliveryOf(st: State, k: HookKey, id: nat) {
    id in st.calls && !st.calls[id].manual && KeyOf(st.calls[id]) == k
  }

  /** If call `id` is a delivery of the row's event, it is an unserved one. */
  predicate UnservedAt(st: State, k: HookKey, id: nat) {
    DeliveryOf(st, k, id) ==> Unserved(st.calls[id])
  }

  lemma ProcessedMeansShut(st: State, k: HookKey)
    requires Sequential(st) && IsProcessed(st.hooks, k)
    ensures Shut(st, k)
  {
    forall id | id in st.calls && AtWork(st.calls[id]) && KeyOf(st.calls[id]) == k
      ensures st.calls[id].phase.Looking?
    {
      assert InTurn(st.hooks, st.calls[id]);
    }
  }

  lemma LookingAtProcessed(st: State, c: Call, w: World)
    requires c.phase.Looking? && IsProcessed(st.hooks, KeyOf(c))
    ensures CallAfter(st, c, w) == c.(phase := Ended(Skipped)) && HooksAfter(st.hooks, c) == st.hooks
  {
  }

  /** The only steps that touch a row are those of calls at work on it that are past their look. */
  lemma OthersLeaveRow(hooks: map<HookKey, HookStatus>, c: Call, k: HookKey)
    requires IsProcessed(hooks, k) && (c.manual ==> Dispatching(c.phase))
    requires AtWork(c) && KeyOf(c) == k ==> c.phase.Looking?
    ensures IsProcessed(HooksAfter(hooks, c), k)
  {
  }

  lemma ShutTurn(st: State, e: Event, k: HookKey)
    requires Inv(st) && Shut(st, k) && e.Turn? && e.call in st.calls
    ensures Shut(Next(st, e), k)
  {
    var c := st.calls[e.call];
    assert c.manual ==> Dispatching(c.phase);
    OthersLeaveRow(st.hooks, c, k);
    StepMovesOne(st, e);
    CallKeepsEvent(st, c, e.world);
    if c.phase.Ended? {
      EndedStays(st, e, e.call);
    } else if KeyOf(c) == k && !c.manual {
      LookingAtProcessed(st, c, e.world);
    }
    hide CallAfter, HooksAfter, TxsAfter, BooksAfter, KeyOf, Inv;
  }

  lemma ShutStays(st: State, e: Event, k: HookKey)
    requires Inv(st) && Shut(st, k)
    ensures Shut(Next(st, e), k)
  {
    if e.Turn? && e.call in st.calls {
      ShutTurn(st, e, k);
    } else if e.Turn? {
    } else {
      StepMovesOne(st, e);
      hide Inv, Record, WithManual, Proceed;
    }
  }

  lemma CallStays(st: State, e: Event, id: nat)
    requires id in st.calls
    ensures id in Next(st, e).calls && SameEvent(st.calls[id], Next(st, e).calls[id])
    ensures KeyOf(Next(st, e).calls[id]) == KeyOf(st.calls[id])
  {
    StepMovesOne(st, e);
    if e.Turn? && e.call in st.calls {
      CallKeepsEvent(st, st.calls[e.call], e.world);
    }
    hide CallAfter, HooksAfter, TxsAfter, BooksAfter, Record, WithManual;
  }

  lemma {:induction false} CallStaysInRun(st: State, more: seq<Event>, id: nat)
    requires id in st.calls
    ensures id in Run(st, more).calls && SameEvent(st.calls[id], Run(st, more).calls[id])
    ensures KeyOf(Run(st, more).calls[id]) == KeyOf(st.calls[id])
  {
    hide Next, KeyOf;
    if more != [] {
      CallStaysInRun(st, more[..|more| - 1], id);
      CallStays(Run(st, more[..|more| - 1]), more[|more| - 1], id);
    }
  }

  lemma UnservedStays(st: State, e: Event, k: HookKey, id: nat)
    requires Inv(st) && Shut(st, k) && UnservedAt(st, k, id)
    ensures UnservedAt(Next(st, e), k, id)
  {
    StepMovesOne(st, e);
    if id in st.calls {
      CallStays(st, e, id);
    }
    if DeliveryOf(st, k, id) && OfCall(e) && e.call == id {
      if st.calls[id].phase.Ended? {
        EndedStays(st, e, id);
      } else if e.Turn? {
        LookingAtProcessed(st, st.calls[id], e.world);
        hide CallAfter, HooksAfter, TxsAfter, BooksAfter;
      } else {
        hide Proceed;
      }
    } else {
      hide Proceed, Inv, KeyOf, WithManual, Record, SameEvent;
    }
  }

  lemma {:induction false} ShutForGood(st: State, more: seq<Event>, k: HookKey, id: nat)
    requires Inv(st) && Shut(st, k) && UnservedAt(st, k, id)
    ensures var st' := Run(st, more); Inv(st') && Shut(st', k) && UnservedAt(st', k, id)
  {
    hide Inv, Shut, Next, UnservedAt;
    if more != [] {
      var (before, e) := (Run(st, more[..|more| - 1]), more[|more| - 1]);
      ShutForGood(st, more[..|more| - 1], k, id);
      NextKeepsInv(before, e);
      ShutStays(before, e, k);
      UnservedStays(before, e, k, id);
    }
  }

  // ---- a call on its own ----

  predicate OnlyTurns(es: seq<Event>, id: nat) {
    forall i :: 0 <= i < |es| ==> es[i].Turn? && es[i].call == id
  }

  /** Call `id` has moved on, and no other has. */
  ghost predicate Moved(st: State, st': State, id: nat) {
    && id in st.calls && id in st'.calls && SameEvent(st.calls[id], st'.calls[id])
    && st'.calls - {id} == st.calls - {id}
  }

  lemma {:induction false} RunCons(st: State, e: Event, es: seq<Event>)
    ensures Run(st, [e] + es) == Run(Next(st, e), es)
  {
    hide Next;
    if es == [] {
      assert [e] + es == [e] && [e][..0] == [];
      assert Run(st, []) == st;
    } else {
      var all := [e] + es;
      assert all[..|all| - 1] == [e] + es[..|es| - 1];
      RunCons(st, e, es[..|es| - 1]);
    }
  }

  lemma TurnMoves(st: State, id: nat, w: World)
    requires id in st.calls
    ensures Moved(st, Next(st, Turn(id, w)), id)
    ensures Next(st, Turn(id, w)).calls[id] == CallAfter(st, st.calls[id], w)
  {
    CallKeepsEvent(st, st.calls[id], w);
    hide CallAfter, HooksAfter, TxsAfter, BooksAfter, SameEvent;
    var st' := Next(st, Turn(id, w));
    assert st'.calls == st.calls[id := CallAfter(st, st.calls[id], w)];
    assert st'.calls - {id} == st.calls - {id};
  }

  function Rank(p: Phase): nat {
    match p
    case FindingSubscription => 9
    case FindingTransaction => 8
    case CreatingTransaction => 7
    case Linking => 6
    case Settling => 5
    case Advancing => 4
    case Recording => 3
    case Publishing => 2
    case MarkingProcessed => 1
    case _ => 0
  }

  /** The call can get to its end: if it is to create a transaction, that can still be done. */
  predicate OnItsWay(txs: seq<Transaction>, c: Call, w: World) {
    && !c.manual && !w.customerFound && Rank(c.phase) > 0
    && (c.phase.CreatingTransaction? ==> CanCreate(txs, c, w))
  }

  lemma OneTurnOnward(st: State, c: Call, w: World)
    requires OnItsWay(st.txs, c, w)
    ensures var c' := CallAfter(st, c, w);
            && Rank(c'.phase) < Rank(c.phase)
            && (c'.phase == Ended(Processed) || (Rank(c'.phase) > 0 && !c'.phase.CreatingTransaction?))
  {
    hide FindTx, CanCreate, Truthy, PreActivation, ActiveLike;
  }

  /** Its own turns, with nothing failing, bring the call to its end. */
  lemma {:induction false} Finish(st: State, id: nat, w: World) returns (es: seq<Event>)
    requires id in st.calls && OnItsWay(st.txs, st.calls[id], w)
    ensures OnlyTurns(es, id) && Moved(st, Run(st, es), id)
    ensures Run(st, es).calls[id].phase == Ended(Processed)
    decreases Rank(st.calls[id].phase)
  {
    var e := Turn(id, w);
    var st1 := Next(st, e);
    TurnMoves(st, id, w);
    OneTurnOnward(st, st.calls[id], w);
    hide Next, CanCreate, CallAfter, Rank;
    if st1.calls[id].phase == Ended(Processed) {
      es := [e];
      RunCons(st, e, []);
      assert [e] + [] == [e] && Run(st1, []) == st1;
    } else {
      var rest := Finish(st1, id, w);
      es := [e] + rest;
      RunCons(st, e, rest);
    }
  }

  /** The call has read a subscription that the engine will advance, or is about to. */
  predicate ToAdvance(c: Call, w: World) {
    && !c.manual && !w.customerFound && c.event.kind.PAYMENT_SUCCEEDED? && Truthy(c.event.externalSubscriptionId)
    && w.subscription.Some? && ActiveLike(w.subscription.value.status)
    && (c.phase.FindingSubscription?
        || (c.sub == w.subscription && (c.phase.FindingTransaction? || c.phase.Linking? || c.phase.Settling?
                                        || c.phase.Advancing?)))
  }

  lemma OneTurnToAdvance(st: State, c: Call, w: World)
    requires ToAdvance(c, w)
    ensures var c' := CallAfter(st, c, w);
            c'.advanced || (Rank(c'.phase) < Rank(c.phase) && ToAdvance(c', w))
  {
    hide FindTx, CanCreate, Truthy, PreActivation;
  }

  lemma {:induction false} ComesToAdvance(st: State, id: nat, w: World) returns (es: seq<Event>)
    requires id in st.calls && ToAdvance(st.calls[id], w)
    ensures OnlyTurns(es, id) && Moved(st, Run(st, es), id) && Run(st, es).calls[id].advanced
    decreases Rank(st.calls[id].phase)
  {
    var e := Turn(id, w);
    var st1 := Next(st, e);
    TurnMoves(st, id, w);
    OneTurnToAdvance(st, st.calls[id], w);
    hide Next, CallAfter, Rank, ToAdvance;
    if st1.calls[id].advanced {
      es := [e];
      RunCons(st, e, []);
      assert [e] + [] == [e] && Run(st1, []) == st1;
    } else {
      var rest := ComesToAdvance(st1, id, w);
      es := [e] + rest;
      RunCons(st, e, rest);
    }
  }

  /** A call that has still to look at a row that is not `PROCESSED` gets past it, and the row is there. */
  lemma GetsPastLook(st: State, id: nat, w: World) returns (es: seq<Event>)
    requires id in st.calls && !st.calls[id].manual && !IsProcessed(st.hooks, KeyOf(st.calls[id]))
    requires st.calls[id].phase.Looking?
          || (st.calls[id].phase.Creating? && KeyOf(st.calls[id]) !in st.hooks)
    ensures var st' := Run(st, es);
            && OnlyTurns(es, id) && Moved(st, st', id)
            && st'.calls[id] == st.calls[id].(phase := FindingSubscription)
            && KeyOf(st.calls[id]) in st'.hooks && !st'.hooks[KeyOf(st.calls[id])].PROCESSED?
            && st'.txs == st.txs
    decreases st.calls[id].phase.Looking?
  {
    var (c, e) := (st.calls[id], Turn(id, w));
    var st1 := Next(st, e);
    TurnMoves(st, id, w);
    PastLook(st, c, w);
    if st1.calls[id].phase.Creating? {
      hide Next, CallAfter;
      var rest := GetsPastLook(st1, id, w);
      es := [e] + rest;
      RunCons(st, e, rest);
    } else {
      es := [e];
      RunCons(st, e, []);
      assert [e] + [] == [e] && Run(st1, []) == st1;
    }
  }

  lemma PastLook(st: State, c: Call, w: World)
    requires !IsProcessed(st.hooks, KeyOf(c)) && (c.phase.Looking? || (c.phase.Creating? && KeyOf(c) !in st.hooks))
    ensures var (c', hooks') := (CallAfter(st, c, w), HooksAfter(st.hooks, c));
            && c' == c.(phase := if c.phase.Looking? && KeyOf(c) !in st.hooks then Creating else FindingSubscription)
            && (c'.phase.Creating? ==> hooks' == st.hooks)
            && (c'.phase.FindingSubscription? ==> KeyOf(c) in hooks' && !hooks'[KeyOf(c)].PROCESSED?)
            && TxsAfter(st.txs, c, w) == st.txs
  {
  }

  lemma {:induction false} RunAppend(st: State, es: seq<Event>, more: seq<Event>)
    ensures Run(st, es + more) == Run(Run(st, es), more)
    decreases |more|
  {
    hide Next;
    if more == [] {
      assert es + more == es;
    } else {
      var last := |more| - 1;
      assert (es + more)[..|es + more| - 1] == es + more[..last];
      RunAppend(st, es, more[..last]);
    }
  }

  // ---- whether a delivery calls the engine ----

  predicate Delivers(st: State, start: Event) {
    start.Begin? && !start.manual && start.call !in st.calls
  }

  function KeyStarted(start: Event): HookKey
    requires start.Begin?
  {
    HookKey(start.provider, start.event.externalEventId)
  }

  predicate Advanced(st: State, id: nat) {
    id in st.calls && st.calls[id].advanced
  }

  predicate ForTheEngine(event: PaymentEvent) {
    event.kind.PAYMENT_SUCCEEDED? && Truthy(event.externalSubscriptionId)
  }

  const LiveWorld := World(Some(Snapshot("", ACTIVE)), false, "", FE.INTERNAL, false)

  lemma BeginsLooking(st: State, start: Event)
    requires Delivers(st, start)
    ensures var (st1, d) := (Next(st, start), start.call);
            && d in st1.calls && st1.calls[d] == Started(start.provider, start.organization, start.event, false)
            && st1.calls[d].phase.Looking? && KeyOf(st1.calls[d]) == KeyStarted(start)
            && st1.hooks == st.hooks && st1.txs == st.txs
            && forall id :: id in st.calls ==> id in st1.calls && st1.calls[id] == st.calls[id]
  {
  }

  lemma CanAdvance(st: State, start: Event) returns (es: seq<Event>)
    requires Delivers(st, start) && ForTheEngine(start.event) && !IsProcessed(st.hooks, KeyStarted(start))
    ensures OnlyTurns(es, start.call) && Advanced(Run(Next(st, start), es), start.call)
    ensures Moved(Next(st, start), Run(Next(st, start), es), start.call)
  {
    BeginsLooking(st, start);
    var (st1, d) := (Next(st, start), start.call);
    hide Next, KeyOf;
    var look := GetsPastLook(st1, d, LiveWorld);
    var st2 := Run(st1, look);
    var rest := ComesToAdvance(st2, d, LiveWorld);
    es := look + rest;
    RunAppend(st1, look, rest);
  }

  lemma CannotAdvance(st: State, start: Event, more: seq<Event>)
    requires Inv(st) && Sequential(st) && Delivers(st, start) && IsProcessed(st.hooks, KeyStarted(start))
    ensures !Advanced(Run(Next(st, start), more), start.call)
  {
    var (st1, d, k) := (Next(st, start), start.call, KeyStarted(start));
    BeginsLooking(st, start);
    ProcessedMeansShut(st, k);
    NextKeepsInv(st, start);
    ShutStays(st, start, k);
    hide Next, Inv, Shut, KeyOf, Sequential;
    ShutForGood(st1, more, k, d);
    CallStaysInRun(st1, more, d);
  }

  /**
   The exact condition: when a payment that names a subscription is delivered again, that delivery can have
   the engine act if and only if the row is not `PROCESSED` as it begins. So every attempt that has broken
   off behind the engine, wherever that was, is repeated by the next delivery.
   */
  lemma AdvancesIffNotProcessed(st: State, start: Event)
    requires Inv(st) && Sequential(st) && Delivers(st, start) && ForTheEngine(start.event)
    ensures (exists more :: Advanced(Run(Next(st, start), more), start.call))
       <==> !IsProcessed(st.hooks, KeyStarted(start))
  {
    hide Run, Next, Inv, Sequential;
    if IsProcessed(st.hooks, KeyStarted(start)) {
      forall more ensures !Advanced(Run(Next(st, start), more), start.call) {
        CannotAdvance(st, start, more);
      }
    } else {
      var es := CanAdvance(st, start);
    }
  }

  lemma {:induction false} TurnsKeepDiscipline(es: seq<Event>, more: seq<Event>, id: nat)
    requires Disciplined(es) && OnlyTurns(more, id)
    ensures Disciplined(es + more)
    decreases |more|
  {
    hide Run;
    if more == [] {
      assert es + more == es;
    } else {
      var last := |more| - 1;
      assert (es + more)[..|es + more| - 1] == es + more[..last];
      TurnsKeepDiscipline(es, more[..last], id);
    }
  }

  /** Call `d` is a delivery of the row's event that had the engine act. */
  predicate AdvancesAgain(es: seq<Event>, k: HookKey, d: nat) {
    DeliveryOf(Run(Init, es), k, d) && Run(Init, es).calls[d].advanced
  }

  lemma ProcessedNeverAgain(es: seq<Event>, more: seq<Event>, k: HookKey, d: nat)
    requires Disciplined(es) && d !in Run(Init, es).calls && IsProcessed(Run(Init, es).hooks, k) && es <= more
    requires Idle(Run(Init, es), k)
    ensures !AdvancesAgain(more, k, d)
  {
    RunKeepsInv(es);
    RunKeepsSequential(es);
    ProcessedMeansShut(Run(Init, es), k);
    hide Run, Inv, Shut, Sequential, Disciplined, KeyOf, Idle;
    assert more == es + more[|es|..];
    RunAppend(Init, es, more[|es|..]);
    ShutForGood(Run(Init, es), more[|es|..], k, d);
  }

  lemma AdvancesNextTime(es: seq<Event>, call: Call, d: nat) returns (es': seq<Event>)
    requires Disciplined(es) && d !in Run(Init, es).calls && ForTheEngine(call.event)
    requires Idle(Run(Init, es), KeyOf(call)) && !IsProcessed(Run(Init, es).hooks, KeyOf(call))
    requires !call.manual
    ensures es <= es' && Disciplined(es') && AdvancesAgain(es', KeyOf(call), d)
  {
    var st := Run(Init, es);
    var start := Begin(d, call.provider, call.organization, call.event, false);
    assert KeyStarted(start) == KeyOf(call);
    var more := CanAdvance(st, start);
    BeginsLooking(st, start);
    var begun := es + [start];
    assert begun[..|es|] == es;
    assert Disciplined(begun) && Run(Init, begun) == Next(st, start);
    hide Next, Disciplined, Idle;
    TurnsKeepDiscipline(begun, more, d);
    RunAppend(Init, begun, more);
    CallStaysInRun(Next(st, start), more, d);
    es' := begun + more;
  }

  /**
   The same over whole runs of deliveries that do not overlap: once an event has been delivered and nobody is
   at work on it, a further delivery has the engine act again in some run if and only if its row is not
   `PROCESSED`.
   */
  lemma RedeliveryAdvancesIff(es: seq<Event>, c: nat, d: nat)
    requires Disciplined(es) && c in Run(Init, es).calls && d !in Run(Init, es).calls
    requires var call := Run(Init, es).calls[c];
             !call.manual && ForTheEngine(call.event) && Idle(Run(Init, es), KeyOf(call))
    ensures var k := KeyOf(Run(Init, es).calls[c]);
            (exists es' :: es <= es' && Disciplined(es') && AdvancesAgain(es', k, d))
            <==> !IsProcessed(Run(Init, es).hooks, k)
  {
    hide Run, Disciplined, AdvancesAgain, KeyOf, Idle, ForTheEngine;
    var call := Run(Init, es).calls[c];
    if IsProcessed(Run(Init, es).hooks, KeyOf(call)) {
      forall es' | es <= es' ensures !AdvancesAgain(es', KeyOf(call), d) {
        ProcessedNeverAgain(es, es', KeyOf(call), d);
      }
    } else {
      var es' := AdvancesNextTime(es, call, d);
    }
  }

  // ---- whether two deliveries that overlap both come through ----

  /** The transaction that the call is about to create can be created: nobody else has created it. */
  predicate CanInsert(txs: seq<Transaction>, c: Call) {
    && Truthy(c.event.externalTransactionId) && Truthy(c.event.currency) && c.event.amountMinor.Some?
    && FindTx(txs, c.provider, c.event.externalTransactionId.value).None?
  }

  /** Nothing keeps the call at work from coming through. */
  predicate CanComeThrough(st: State, c: Call) {
    && !IsProcessed(st.hooks, KeyOf(c)) && !c.phase.MarkingFailed?
    && (c.phase.CreatingTransaction? ==> CanInsert(st.txs, c))
  }

  predicate CameThrough(st: State, id: nat) {
    id in st.calls && st.calls[id].phase == Ended(Processed)
  }

  /** The call will not come through any more. */
  predicate Doomed(txs: seq<Transaction>, c: Call) {
    match c.phase
    case CreatingTransaction => !CanInsert(txs, c)
    case MarkingFailed => true
    case Ended(r) => r != Processed
    case _ => false
  }

  lemma NoInsertStays(txs: seq<Transaction>, txs': seq<Transaction>, c: Call)
    requires !CanInsert(txs, c) && Grows(txs, txs')
    ensures !CanInsert(txs', c)
  {
    if c.event.externalTransactionId.Some? {
      var found := FindTx(txs, c.provider, c.event.externalTransactionId.value);
      if found.Some? {
        assert SameTx(txs[found.value], txs'[found.value]);
      }
    }
  }

  lemma DoomedTurn(st: State, c: Call, w: World)
    requires Doomed(st.txs, c) && !c.manual
    ensures var c' := CallAfter(st, c, w);
            c'.phase.MarkingFailed? || (c'.phase.Ended? && c'.phase.result != Processed)
  {
    hide FindTx;
  }

  lemma DoomedStays(st: State, e: Event, id: nat)
    requires Inv(st) && id in st.calls && !st.calls[id].manual && Doomed(st.txs, st.calls[id])
    ensures var st' := Next(st, e);
            id in st'.calls && !st'.calls[id].manual && Doomed(st'.txs, st'.calls[id])
  {
    StepMovesOne(st, e);
    StepKeepsTables(st, e);
    CallStays(st, e, id);
    var st' := Next(st, e);
    if OfCall(e) && e.call == id && e.Turn? {
      DoomedTurn(st, st.calls[id], e.world);
      hide CallAfter, HooksAfter, TxsAfter, BooksAfter, CanInsert;
    } else if OfCall(e) && e.call == id {
      hide Proceed, CanInsert;
    } else {
      assert st'.calls[id] == st.calls[id];
      hide Next, Inv;
      if st.calls[id].phase.CreatingTransaction? {
        NoInsertStays(st.txs, st'.txs, st.calls[id]);
      }
      hide CanInsert;
    }
  }

  lemma {:induction false} DoomedForGood(st: State, more: seq<Event>, id: nat)
    requires Inv(st) && id in st.calls && !st.calls[id].manual && Doomed(st.txs, st.calls[id])
    ensures var st' := Run(st, more);
            && Inv(st') && id in st'.calls && !st'.calls[id].manual && Doomed(st'.txs, st'.calls[id])
  {
    hide Inv, Next, Doomed;
    if more != [] {
      DoomedForGood(st, more[..|more| - 1], id);
      NextKeepsInv(Run(st, more[..|more| - 1]), more[|more| - 1]);
      DoomedStays(Run(st, more[..|more| - 1]), more[|more| - 1], id);
    }
  }

  /** An id that no transaction has. */
  function FreshId(txs: seq<Transaction>): (id: string)
    ensures forall i :: 0 <= i < |txs| ==> |txs[i].id| < |id|
  {
    if txs == [] then "0" else FreshId(txs[..|txs| - 1]) + txs[|txs| - 1].id
  }

  lemma InsertCanBeMade(txs: seq<Transaction>, c: Call)
    requires CanInsert(txs, c)
    ensures CanCreate(txs, c, World(None, false, FreshId(txs), FE.INTERNAL, false))
  {
    hide FindTx, Truthy;
    assert forall i :: 0 <= i < |txs| ==> txs[i].id != FreshId(txs);
  }

  lemma BothCome(st: State, c: nat, start: Event) returns (es: seq<Event>)
    requires Inv(st) && Sequential(st) && c in st.calls && AtWork(st.calls[c]) && Delivers(st, start)
    requires KeyStarted(start) == KeyOf(st.calls[c]) && CanComeThrough(st, st.calls[c])
    ensures CameThrough(Run(Next(st, start), es), c) && CameThrough(Run(Next(st, start), es), start.call)
  {
    var (k, d) := (KeyOf(st.calls[c]), start.call);
    var w := World(None, false, FreshId(st.txs), FE.INTERNAL, false);
    if st.calls[c].phase.CreatingTransaction? {
      InsertCanBeMade(st.txs, st.calls[c]);
    }
    BeginsLooking(st, start);
    var st1 := Next(st, start);
    var first := FirstThenSecond(st, c, start, w);
    var st3 := Run(st1, first);
    hide Next, Inv, Sequential, CanCreate, KeyOf, CanInsert, CanComeThrough;
    var third := Finish(st3, c, w);
    var st4 := Run(st3, third);
    OtherStays(st3, st4, c, d);
    var fourth := Finish(st4, d, w);
    OtherStays(st4, Run(st4, fourth), d, c);
    es := first + third + fourth;
    RunAppend(st1, first, third);
    RunAppend(st1, first + third, fourth);
  }

  lemma OtherStays(st: State, st': State, id: nat, d: nat)
    requires Moved(st, st', id) && d in st.calls && d != id
    ensures d in st'.calls && st'.calls[d] == st.calls[d]
  {
    assert d in st.calls - {id};
    assert (st'.calls - {id})[d] == (st.calls - {id})[d];
  }

  /** Both deliveries get past their look. */
  lemma FirstThenSecond(st: State, c: nat, start: Event, w: World) returns (es: seq<Event>)
    requires Inv(st) && Sequential(st) && c in st.calls && AtWork(st.calls[c]) && Delivers(st, start)
    requires KeyStarted(start) == KeyOf(st.calls[c]) && CanComeThrough(st, st.calls[c]) && !w.customerFound
    requires st.calls[c].phase.CreatingTransaction? ==> CanCreate(st.txs, st.calls[c], w)
    ensures var (st', d) := (Run(Next(st, start), es), start.call);
            && c in st'.calls && d in st'.calls && c != d
            && OnItsWay(st'.txs, st'.calls[c], w)
            && !st'.calls[d].manual && st'.calls[d].phase.FindingSubscription?
  {
    var (d, st1) := (start.call, Next(st, start));
    BeginsLooking(st, start);
    assert InTurn(st.hooks, st.calls[c]);
    var first := FirstGoesOnAgain(st, st1, c, w);
    var st2 := Run(st1, first);
    hide Next, Inv, Sequential, CanCreate, InTurn, CanInsert;
    OtherStays(st1, st2, c, d);
    var second := GetsPastLook(st2, d, w);
    OtherStays(st2, Run(st2, second), d, c);
    es := first + second;
    RunAppend(st1, first, second);
  }

  /** The call at work goes on until the row is there and it is past its look. */
  lemma FirstGoesOnAgain(st: State, st1: State, id: nat, w: World) returns (es: seq<Event>)
    requires id in st.calls && AtWork(st.calls[id]) && CanComeThrough(st, st.calls[id]) && InTurn(st.hooks, st.calls[id])
    requires st1.hooks == st.hooks && st1.txs == st.txs && id in st1.calls && st1.calls[id] == st.calls[id]
    ensures var (st', k) := (Run(st1, es), KeyOf(st.calls[id]));
            && OnlyTurns(es, id) && Moved(st1, st', id)
            && k in st'.hooks && !st'.hooks[k].PROCESSED? && st'.txs == st.txs
            && Rank(st'.calls[id].phase) > 0
            && (st'.calls[id].phase.CreatingTransaction? ==> st'.calls[id] == st.calls[id])
  {
    if st1.calls[id].phase.Looking? || st1.calls[id].phase.Creating? {
      es := GetsPastLook(st1, id, w);
    } else {
      es := [];
      assert Run(st1, es) == st1;
    }
  }

  /** Neither a shut row nor a doomed call lets both through. */
  lemma NotBothCome(es: seq<Event>, c: nat, start: Event, more: seq<Event>)
    requires Disciplined(es) && c in Run(Init, es).calls && AtWork(Run(Init, es).calls[c])
    requires Delivers(Run(Init, es), start) && !CanComeThrough(Run(Init, es), Run(Init, es).calls[c])
    ensures !CameThrough(Run(Next(Run(Init, es), start), more), c)
  {
    var st := Run(Init, es);
    var k := KeyOf(st.calls[c]);
    RunKeepsInv(es);
    RunKeepsSequential(es);
    RunKeepsAdvancedLate(es);
    BeginsLooking(st, start);
    NextKeepsInv(st, start);
    var st1 := Next(st, start);
    if IsProcessed(st.hooks, k) {
      ProcessedMeansShut(st, k);
      ShutStays(st, start, k);
      assert AdvancedLate(st.calls[c]);
      hide Next, Run, Inv, Shut, KeyOf, Sequential, Disciplined;
      ShutForGood(st1, more, k, c);
      CallStaysInRun(st1, more, c);
    } else {
      hide Next, Run, Inv, KeyOf, Sequential, Disciplined, CanInsert;
      DoomedForGood(st1, more, c);
    }
  }

  /**
   The exact condition for overlap: when a second delivery begins while call `c` is at work on the row, both
   can come through, and so mark it `PROCESSED` twice, if and only if the row is not `PROCESSED` by then and
   the call is neither recording a failure nor about to create a transaction that is there already.
   */
  lemma BothComeThroughIff(es: seq<Event>, c: nat, start: Event)
    requires Disciplined(es) && c in Run(Init, es).calls && AtWork(Run(Init, es).calls[c])
    requires Delivers(Run(Init, es), start) && KeyStarted(start) == KeyOf(Run(Init, es).calls[c])
    ensures var st := Run(Init, es);
            (exists more :: CameThrough(Run(Next(st, start), more), c)
                            && CameThrough(Run(Next(st, start), more), start.call))
            <==> CanComeThrough(st, st.calls[c])
  {
    var st := Run(Init, es);
    if CanComeThrough(st, st.calls[c]) {
      RunKeepsInv(es);
      RunKeepsSequential(es);
      hide Run, Next, Inv, Sequential;
      var more := BothCome(st, c, start);
    } else {
      forall more ensures !CameThrough(Run(Next(st, start), more), c) {
        NotBothCome(es, c, start, more);
      }
    }
  }
}
