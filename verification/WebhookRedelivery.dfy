/**
 What redelivery does where no key guards: an attempt that fails between the subscription engine and
 the books is made again from the start, and overlapping attempts both come through.
 */
module WebhookRedelivery {
  import opened Common
  import FE = FinancialEvents
  import opened Webhooks

  /** `n` steps of one call. */
  function Turns(st: State, id: nat, w: World, n: nat): State {
    if n == 0 then st else Next(Turns(st, id, w, n - 1), Turn(id, w))
  }

  /** A subscription that the event names and the engine will advance. */
  predicate Finds(c: Call, w: World) {
    && c.event.kind.PAYMENT_SUCCEEDED? && Truthy(c.event.externalSubscriptionId) && w.subscription.Some?
    && (PreActivation(w.subscription.value.status) || ActiveLike(w.subscription.value.status))
  }

  lemma DispatchFinds(st: State, id: nat, c: Call, w: World)
    requires id in st.calls && st.calls[id] == c && c.phase.FindingSubscription? && c.tx.None? && Finds(c, w)
    requires Truthy(c.event.externalTransactionId)
    requires FindTx(st.txs, c.provider, c.event.externalTransactionId.value).Some?
    ensures Turns(st, id, w, 3) == SetCall(st, id, c.(phase := Settling, sub := w.subscription,
              tx := FindTx(st.txs, c.provider, c.event.externalTransactionId.value)))
  {
    hide FindTx, Record, Settle, CanCreate, PreActivation, ActiveLike;
    var c1 := c.(phase := FindingTransaction, sub := w.subscription);
    assert Turns(st, id, w, 1) == SetCall(st, id, c1);
    var c2 := c1.(phase := Linking, tx := FindTx(st.txs, c.provider, c.event.externalTransactionId.value));
    assert Turns(st, id, w, 2) == SetCall(st, id, c2);
  }

  lemma {:induction false} TurnsAdd(st: State, id: nat, w: World, m: nat, n: nat)
    ensures Turns(st, id, w, m + n) == Turns(Turns(st, id, w, m), id, w, n)
  {
    hide Next;
    if n > 0 { TurnsAdd(st, id, w, m, n - 1); }
  }

  /** The five steps from the subscription lookup to the engine, for a transaction that is there. */
  lemma DispatchAdvances(st: State, id: nat, c: Call, w: World)
    requires id in st.calls && st.calls[id] == c && c.phase.FindingSubscription? && c.tx.None? && Finds(c, w)
    requires Truthy(c.event.externalTransactionId)
    requires FindTx(st.txs, c.provider, c.event.externalTransactionId.value).Some?
    ensures var c' := c.(phase := Recording, sub := w.subscription, advanced := true,
                         tx := FindTx(st.txs, c.provider, c.event.externalTransactionId.value));
            Turns(st, id, w, 5) == State(st.hooks, Settle(st.txs, c'), st.books, st.calls[id := c'])
  {
    hide FindTx, Turns, Next, Settle;
    DispatchFinds(st, id, c, w);
    var c3 := c.(phase := Settling, sub := w.subscription,
                 tx := FindTx(st.txs, c.provider, c.event.externalTransactionId.value));
    var c4 := c3.(phase := Advancing);
    var c5 := c3.(phase := Recording, advanced := true);
    var s3 := SetCall(st, id, c3);
    SettlingStep(s3, id, c3, w);
    assert s3.calls[id := c4] == st.calls[id := c4];
    var s4 := State(st.hooks, Settle(st.txs, c3), st.books, st.calls[id := c4]);
    AdvancingStep(s4, id, c4, w);
    assert s4.calls[id := c5] == st.calls[id := c5];
    SettleReads(st.txs, c3, c5);
    TurnsAdd(st, id, w, 3, 2);
    TwoTurns(s3, id, w);
  }

  lemma AdvancingStep(st: State, id: nat, c: Call, w: World)
    requires id in st.calls && st.calls[id] == c && c.phase.Advancing? && c.event.kind.PAYMENT_SUCCEEDED?
    requires c.sub.Some? && (PreActivation(c.sub.value.status) || ActiveLike(c.sub.value.status))
    ensures Next(st, Turn(id, w)) == SetCall(st, id, c.(phase := Recording, advanced := true))
  {
    hide KeyOf, PreActivation, ActiveLike;
  }

  lemma OneTurn(st: State, id: nat, w: World)
    ensures Turns(st, id, w, 1) == Next(st, Turn(id, w))
  {
    hide Next;
    assert Turns(st, id, w, 0) == st;
  }

  lemma TwoTurns(st: State, id: nat, w: World)
    ensures Turns(st, id, w, 2) == Next(Next(st, Turn(id, w)), Turn(id, w))
  {
    OneTurn(st, id, w);
    hide Next;
  }

  /** A first delivery that throws when it comes to record the payment. */
  function FirstAttempt(st: State, id: nat, start: Event, w: World): State {
    Turns(Next(Turns(Next(st, start), id, w, 7), Fail(id)), id, w, 1)
  }

  /** A delivery of an event whose row is there, and nothing fails. */
  function SecondAttempt(st: State, id: nat, start: Event, w: World): State {
    Turns(Next(st, start), id, w, 9)
  }

  /** What the attempts need of the event and of what they read: a known transaction, a live subscription. */
  predicate Ready(st: State, c: Call, w: World) {
    && Finds(c, w) && Truthy(c.event.externalTransactionId)
    && FindTx(st.txs, c.provider, c.event.externalTransactionId.value).Some?
  }

  /** The two steps that create the row of an event not seen before. */
  lemma RowIsCreated(st: State, id: nat, c: Call, w: World)
    requires id !in st.calls && c.phase.Looking? && KeyOf(c) !in st.hooks
    ensures Turns(SetCall(st, id, c), id, w, 2)
         == State(st.hooks[KeyOf(c) := VERIFIED], st.txs, st.books,
                  st.calls[id := c.(phase := FindingSubscription)])
  {
    hide Proceed, Next, KeyOf;
    var c1 := c.(phase := Creating);
    var c2 := c.(phase := FindingSubscription);
    var s0 := SetCall(st, id, c);
    KeyReads(c, c1);
    LookingStep(s0, id, c, w);
    var s1 := SetCall(s0, id, c1);
    CreatingStep(s1, id, c1, w);
    assert Turns(s0, id, w, 1) == Next(s0, Turn(id, w));
    assert Turns(s0, id, w, 2) == Next(s1, Turn(id, w));
    assert s1.calls[id := c2] == st.calls[id := c2];
  }

  lemma LookingStep(st: State, id: nat, c: Call, w: World)
    requires id in st.calls && st.calls[id] == c && c.phase.Looking? && KeyOf(c) !in st.hooks
    ensures Next(st, Turn(id, w)) == SetCall(st, id, c.(phase := Creating))
  {
    hide KeyOf;
  }

  lemma CreatingStep(st: State, id: nat, c: Call, w: World)
    requires id in st.calls && st.calls[id] == c && c.phase.Creating? && KeyOf(c) !in st.hooks
    ensures Next(st, Turn(id, w))
         == State(st.hooks[KeyOf(c) := VERIFIED], st.txs, st.books, st.calls[id := c.(phase := FindingSubscription)])
  {
    hide KeyOf;
  }

  lemma FailureMarks(st: State, id: nat, c: Call, w: World)
    requires id in st.calls && st.calls[id] == c && c.phase.Recording? && !c.manual
    ensures Turns(Next(st, Fail(id)), id, w, 1)
         == State(st.hooks[KeyOf(c) := FAILED], st.txs, st.books, st.calls[id := c.(phase := Ended(MarkedFailed))])
  {
    hide KeyOf;
    var failed := SetCall(st, id, c.(phase := MarkingFailed));
    assert Next(st, Fail(id)) == failed;
    assert Turns(failed, id, w, 1) == Next(failed, Turn(id, w)) == Proceed(failed, id, failed.calls[id], w);
    assert KeyOf(failed.calls[id]) == KeyOf(c) by { KeyReads(failed.calls[id], c); }
  }

  lemma KeyReads(c: Call, c': Call)
    requires c.provider == c'.provider && c.event == c'.event
    ensures KeyOf(c) == KeyOf(c')
  {
  }

  lemma SettleReads(txs: seq<Transaction>, c: Call, c': Call)
    requires c.tx == c'.tx && c.event == c'.event
    ensures Settle(txs, c) == Settle(txs, c')
  {
  }

  /** The call of a first delivery that broke off behind the engine. */
  function Broken(st: State, start: Event, w: World): Call
    requires start.Begin? && start.event.externalTransactionId.Some?
  {
    Started(start.provider, start.organization, start.event, false)
    .(phase := Ended(MarkedFailed), sub := w.subscription, advanced := true,
      tx := FindTx(st.txs, start.provider, start.event.externalTransactionId.value))
  }

  lemma FirstAttemptAdvances(st: State, id: nat, start: Event, w: World)
    requires start.Begin? && start.call == id && id !in st.calls && !start.manual
    requires var c := Started(start.provider, start.organization, start.event, false);
             KeyOf(c) !in st.hooks && Ready(st, c, w)
    ensures var c' := Broken(st, start, w);
            FirstAttempt(st, id, start, w)
              == State(st.hooks[KeyOf(c') := FAILED], Settle(st.txs, c'), st.books, st.calls[id := c'])
  {
    hide FindTx, Settle, Turns;
    var c := Started(start.provider, start.organization, start.event, false);
    var s0 := SetCall(st, id, c);
    assert Next(st, start) == s0;
    RowIsCreated(st, id, c, w);
    TurnsAdd(s0, id, w, 2, 5);
    var c2 := c.(phase := FindingSubscription);
    var s2 := State(st.hooks[KeyOf(c) := VERIFIED], st.txs, st.books, st.calls[id := c2]);
    DispatchAdvances(s2, id, c2, w);
    var c' := Broken(st, start, w);
    var c7 := c'.(phase := Recording);
    SettleReads(st.txs, c7, c');
    KeyReads(c7, c);
    KeyReads(c', c);
    hide Next, Finds, Truthy, KeyOf, Started;
    FailureMarks(State(s2.hooks, Settle(st.txs, c7), st.books, s2.calls[id := c7]), id, c7, w);
  }

  lemma FoundStep(st: State, id: nat, c: Call, w: World)
    requires id in st.calls && st.calls[id] == c && c.phase.Looking?
    requires KeyOf(c) in st.hooks && !st.hooks[KeyOf(c)].PROCESSED?
    ensures Next(st, Turn(id, w)) == SetCall(st, id, c.(phase := FindingSubscription))
  {
    hide KeyOf;
  }

  /** From the engine to the end of a delivery in which nothing fails. */
  lemma RestOfDispatch(st: State, id: nat, c: Call, w: World)
    requires id in st.calls && st.calls[id] == c && c.phase.Recording? && c.tx.Some? && c.tx.value < |st.txs|
    requires !c.manual
    ensures Turns(st, id, w, 3)
         == State(st.hooks[KeyOf(c) := PROCESSED], st.txs,
                  Record(st.books, RequestOf(st.txs[c.tx.value], c, w), id, w.integration),
                  st.calls[id := c.(phase := Ended(Processed))])
  {
    hide Record, RequestOf, KeyOf, Turns, Next;
    var (c1, c2, c3) := (c.(phase := Publishing), c.(phase := MarkingProcessed), c.(phase := Ended(Processed)));
    RecordingStep(st, id, c, w);
    var s1 := Next(st, Turn(id, w));
    PublishingStep(s1, id, c1, w);
    assert s1.calls[id := c2] == st.calls[id := c2];
    var s2 := SetCall(s1, id, c2);
    MarkingStep(s2, id, c2, w);
    KeyReads(c2, c);
    assert s2.calls[id := c3] == st.calls[id := c3];
    TurnsAdd(st, id, w, 2, 1);
    TwoTurns(st, id, w);
    OneTurn(s2, id, w);
  }

  lemma PublishingStep(st: State, id: nat, c: Call, w: World)
    requires id in st.calls && st.calls[id] == c && c.phase.Publishing? && !c.manual
    ensures Next(st, Turn(id, w)) == SetCall(st, id, c.(phase := MarkingProcessed))
  {
    hide KeyOf;
  }

  /** The call of a delivery that came through, as it records the payment. */
  function Complete(st: State, start: Event, w: World): Call
    requires start.Begin? && start.event.externalTransactionId.Some?
  {
    Broken(st, start, w).(phase := Recording)
  }

  lemma SecondAttemptCompletes(st: State, id: nat, start: Event, w: World)
    requires start.Begin? && start.call == id && id !in st.calls && !start.manual
    requires var c := Started(start.provider, start.organization, start.event, false);
             KeyOf(c) in st.hooks && !st.hooks[KeyOf(c)].PROCESSED? && Ready(st, c, w)
    ensures var c' := Complete(st, start, w);
            var txs := Settle(st.txs, c');
            && c'.tx.Some? && c'.tx.value < |txs|
            && SecondAttempt(st, id, start, w)
              == State(st.hooks[KeyOf(c') := PROCESSED], txs,
                       Record(st.books, RequestOf(txs[c'.tx.value], c', w), id, w.integration),
                       st.calls[id := c'.(phase := Ended(Processed))])
  {
    hide FindTx, Turns, Record, RequestOf;
    var c := Started(start.provider, start.organization, start.event, false);
    var c1 := c.(phase := FindingSubscription);
    var s0 := SetCall(st, id, c);
    assert Next(st, start) == s0;
    FoundStep(s0, id, c, w);
    assert s0.calls[id := c1] == st.calls[id := c1];
    var s1 := SetCall(st, id, c1);
    DispatchAdvances(s1, id, c1, w);
    var c' := Complete(st, start, w);
    assert s1.calls[id := c'] == st.calls[id := c'];
    var s6 := State(st.hooks, Settle(st.txs, c'), st.books, st.calls[id := c']);
    KeyReads(c', c);
    hide Next, Finds, Truthy, KeyOf, Started, Settle;
    SettledSize(st.txs, c');
    RestOfDispatch(s6, id, c', w);
    TurnsAdd(s0, id, w, 1, 5);
    OneTurn(s0, id, w);
    TurnsAdd(s0, id, w, 6, 3);
    var c9 := c'.(phase := Ended(Processed));
    assert s6.calls[id := c9] == st.calls[id := c9];
  }

  lemma SettledSize(txs: seq<Transaction>, c: Call)
    ensures |Settle(txs, c)| == |txs| && forall i :: 0 <= i < |txs| ==> SameTx(txs[i], Settle(txs, c)[i])
  {
  }

  lemma {:induction false} FindIgnoresStatus(txs: seq<Transaction>, txs': seq<Transaction>, provider: string,
                                             reference: string)
    requires |txs| == |txs'| && forall i :: 0 <= i < |txs| ==> SameTx(txs[i], txs'[i])
    ensures FindTx(txs', provider, reference) == FindTx(txs, provider, reference)
  {
    if txs != [] {
      FindIgnoresStatus(txs[..|txs| - 1], txs'[..|txs| - 1], provider, reference);
    }
  }

  /** A second delivery of the same event. */
  predicate SameEventAgain(start: Event, again: Event) {
    && start.Begin? && !start.manual && again.Begin? && again.call != start.call
    && again == Begin(again.call, start.provider, start.organization, start.event, false)
  }

  /**
   The engine is called once for each attempt, while the payment is booked once, by the attempt that
   got there. A first payment that activated its subscription is then booked as a renewal.
   */
  lemma RedeliveryRenewsTwice(st: State, start: Event, again: Event, w1: World, w2: World)
    requires BooksOk(st.books) && SameEventAgain(start, again)
    requires start.call !in st.calls && again.call !in st.calls
    requires var c := Started(start.provider, start.organization, start.event, false);
             && KeyOf(c) !in st.hooks && Ready(st, c, w1) && Finds(c, w2)
             && !Booked(st.books.events,
                        st.txs[FindTx(st.txs, c.provider, c.event.externalTransactionId.value).value].id)
    ensures var st1 := FirstAttempt(st, start.call, start, w1);
            var st2 := SecondAttempt(st1, again.call, again, w2);
            var c := Started(start.provider, start.organization, start.event, false);
            && start.call in st2.calls && again.call in st2.calls
            && st2.calls[start.call].advanced && st2.calls[again.call].advanced
            && KeyOf(c) in st2.hooks && st2.hooks[KeyOf(c)].PROCESSED?
            && |st2.books.events| == |st.books.events| + 1
            && (ActiveLike(w2.subscription.value.status) ==>
                  st2.books.events[|st.books.events|].request.kind == "SUBSCRIPTION_RENEWED")
  {
    var (a, b) := (start.call, again.call);
    FirstAttemptAdvances(st, a, start, w1);
    var st1 := FirstAttempt(st, a, start, w1);
    var c := Started(start.provider, start.organization, start.event, false);
    var c1 := Broken(st, start, w1);
    KeyReads(c, c1);
    SettledSize(st.txs, c1);
    FindIgnoresStatus(st.txs, st1.txs, c.provider, c.event.externalTransactionId.value);
    hide FirstAttempt, FindTx, Settle;
    assert Ready(st1, c, w2);
    SecondAttemptCompletes(st1, b, again, w2);
    var c2 := Complete(st1, again, w2);
    KeyReads(c, c2);
    SettledSize(st1.txs, c2);
    hide SecondAttempt, Booked, KeyOf, Finds, Truthy, PreActivation, ActiveLike;
    BookingIsNew(st.books, Settle(st1.txs, c2)[c2.tx.value], c2, w2, b);
  }

  lemma BookingIsNew(books: FE.Tables, t: Transaction, c: Call, w: World, author: nat)
    requires BooksOk(books) && !Booked(books.events, t.id) && c.event.kind.PAYMENT_SUCCEEDED? && c.sub.Some?
    ensures var books' := Record(books, RequestOf(t, c, w), author, w.integration);
            && |books'.events| == |books.events| + 1
            && (ActiveLike(c.sub.value.status) ==>
                  books'.events[|books.events|].request.kind == "SUBSCRIPTION_RENEWED")
  {
    FE.OnlyTheKeyCollides(books, RequestOf(t, c, w), author, w.integration);
    hide FE.Transaction, FE.Find;
  }

  /** Two deliveries of one event that both looked at its row before either was done. */
  lemma OverlapProcessesTwice(st: State, a: nat, b: nat, c: Call, w: World)
    requires a != b && a in st.calls && b in st.calls && st.calls[a] == st.calls[b] == c
    requires c.phase.FindingSubscription? && c.tx.None? && !c.manual && Ready(st, c, w)
    ensures var st' := Turns(Turns(st, a, w, 8), b, w, 8);
            && a in st'.calls && b in st'.calls
            && EndedProcessed(st'.calls[a], KeyOf(c)) && EndedProcessed(st'.calls[b], KeyOf(c))
            && st'.calls[a].advanced && st'.calls[b].advanced
  {
    ComesThrough(st, a, c, w);
    var st1 := Turns(st, a, w, 8);
    hide Turns;
    FindIgnoresStatus(st.txs, st1.txs, c.provider, c.event.externalTransactionId.value);
    ComesThrough(st1, b, c, w);
  }

  lemma ComesThrough(st: State, id: nat, c: Call, w: World)
    requires id in st.calls && st.calls[id] == c
    requires c.phase.FindingSubscription? && c.tx.None? && !c.manual && Ready(st, c, w)
    ensures var st' := Turns(st, id, w, 8);
            && id in st'.calls && EndedProcessed(st'.calls[id], KeyOf(c)) && st'.calls[id].advanced
            && (forall d :: d in st.calls && d != id ==> d in st'.calls && st'.calls[d] == st.calls[d])
            && |st'.txs| == |st.txs| && forall i :: 0 <= i < |st.txs| ==> SameTx(st.txs[i], st'.txs[i])
  {
    hide Turns, FindTx, Settle, Record, RequestOf;
    DispatchAdvances(st, id, c, w);
    var c' := c.(phase := Recording, sub := w.subscription, advanced := true,
                 tx := FindTx(st.txs, c.provider, c.event.externalTransactionId.value));
    SettledSize(st.txs, c');
    var st5 := State(st.hooks, Settle(st.txs, c'), st.books, st.calls[id := c']);
    RestOfDispatch(st5, id, c', w);
    TurnsAdd(st, id, w, 5, 3);
    KeyReads(c, c');
    hide KeyOf, Finds, Truthy;
  }
}
