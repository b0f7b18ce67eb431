/**
 Recording financial events. Each call of `record` checks its idempotency key, reads the provider,
 tries one transaction of three inserts and, if it lost a race, looks the winner up; the steps of any
 number of calls interleave.
 */
module FinancialEvents {
  import opened Common

  datatype Provider = INTERNAL | LEDGIX_ERP

  /** The part of a payload that says what is booked, and why. */
  datatype Payload = Payload(reason: string, transaction: Option<string>, amountMinor: Option<int>,
                             currency: Option<string>)

  /** What a caller asks to have recorded; `kind`, `payload` and `refs` are stored as they are. */
  datatype Request = Request(organization: string, kind: string, payload: Payload, refs: string,
                             key: Option<string>)

  /** A `FinancialEvent` row; its id is its place in the table. `author` is the call that inserted it. */
  datatype EventRow = EventRow(request: Request, author: nat)

  /** A `FinancialSync` row. */
  datatype SyncEntry = SyncEntry(event: nat, provider: Provider)

  /** The three tables; `queue` holds the event id of each `SyncQueue` row. */
  datatype Tables = Tables(events: seq<EventRow>, queue: seq<nat>, syncs: seq<SyncEntry>)

  datatype Phase =
    | Checking
    | ReadingProvider
    | Inserting(provider: Provider)
    | LookingUp
    | Returning(id: nat)
    | Returned(id: nat)
    | Thrown

  datatype Call = Call(request: Request, phase: Phase)

  datatype State = State(tables: Tables, calls: map<nat, Call>)

  /** `Turn` is the next step of a call; `integration` is what it would find as its organization's provider. */
  datatype Event =
    | Begin(call: nat, request: Request)
    | Turn(call: nat, integration: Option<Provider>)
    | Fail(call: nat)

  const Init := State(Tables([], [], []), map[])

  /** An empty key is as good as none to the checks around the insert, but not to the unique index. */
  predicate Keyed(r: Request) {
    r.key.Some? && r.key.value != ""
  }

  function Find(events: seq<EventRow>, key: string): (r: Option<nat>)
    ensures r.Some? ==> r.value < |events| && events[r.value].request.key == Some(key)
    ensures r.None? ==> forall i :: 0 <= i < |events| ==> events[i].request.key != Some(key)
  {
    if events == [] then None
    else if events[|events| - 1].request.key == Some(key) then Some(|events| - 1)
    else Find(events[..|events| - 1], key)
  }

  // ---- the inserts, each against its unique index ----

  function InsertEvent(t: Tables, r: Request, author: nat): Option<Tables> {
    if r.key.Some? && Find(t.events, r.key.value).Some? then None
    else Some(t.(events := t.events + [EventRow(r, author)]))
  }

  function InsertQueue(t: Tables, id: nat): Option<Tables> {
    if id in t.queue then None else Some(t.(queue := t.queue + [id]))
  }

  function InsertSync(t: Tables, id: nat, provider: Provider): Option<Tables> {
    if exists s :: s in t.syncs && s.event == id then None
    else Some(t.(syncs := t.syncs + [SyncEntry(id, provider)]))
  }

  /** All three inserts, or `None` for a unique violation, which leaves the tables as they were. */
  function Transaction(t: Tables, r: Request, author: nat, provider: Provider): Option<Tables> {
    var t1 := InsertEvent(t, r, author);
    if t1.None? then None
    else
      var t2 := InsertQueue(t1.value, |t.events|);
      if t2.None? then None else InsertSync(t2.value, |t.events|, provider)
  }

  // ---- the steps of one call ----

  function AfterInsert(st: State, c: nat, call: Call): State
    requires call.phase.Inserting?
  {
    match Transaction(st.tables, call.request, c, call.phase.provider)
    case Some(tables) => State(tables, st.calls[c := call.(phase := Returning(|st.tables.events|))])
    case None => st.(calls := st.calls[c := call.(phase := if Keyed(call.request) then LookingUp else Thrown)])
  }

  /** The phase that follows a step that only reads. */
  function AfterRead(events: seq<EventRow>, call: Call, integration: Option<Provider>): Phase {
    match call.phase
    case Checking =>
      var found := if Keyed(call.request) then Find(events, call.request.key.value) else None;
      if found.Some? then Returning(found.value) else ReadingProvider
    case ReadingProvider => Inserting(integration.GetOr(INTERNAL))
    case LookingUp =>
      var winner := if call.request.key.Some? then Find(events, call.request.key.value) else None;
      if winner.Some? then Returning(winner.value) else Thrown
    case Returning(id) => Returned(id)
    case _ => call.phase
  }

  predicate Finished(p: Phase) {
    p.Returned? || p.Thrown?
  }

  /** A step that is not possible in `st` changes nothing. */
  function Next(st: State, e: Event): State {
    match e
    case Begin(c, request) =>
      if c in st.calls then st else st.(calls := st.calls[c := Call(request, Checking)])
    case Turn(c, integration) =>
      if c !in st.calls || Finished(st.calls[c].phase) then st
      else if st.calls[c].phase.Inserting? then AfterInsert(st, c, st.calls[c])
      else
        var call := st.calls[c];
        st.(calls := st.calls[c := call.(phase := AfterRead(st.tables.events, call, integration))])
    case Fail(c) =>
      if c !in st.calls || Finished(st.calls[c].phase) then st
      else st.(calls := st.calls[c := st.calls[c].(phase := Thrown)])
  }

  function Run(st: State, es: seq<Event>): State {
    if es == [] then st else Next(Run(st, es[..|es| - 1]), es[|es| - 1])
  }

  // ---- what every step keeps ----

  predicate SameKey(e: EventRow, e': EventRow) {
    e.request.key == e'.request.key
  }

  ghost predicate KeysUnique(events: seq<EventRow>) {
    forall i, j ::
      0 <= i < |events| && 0 <= j < |events| && events[i].request.key.Some? && SameKey(events[i], events[j]) ==> i == j
  }

  /** The rows of the three tables come in step. */
  ghost predicate RowsMatch(t: Tables) {
    && |t.queue| == |t.events| == |t.syncs|
    && (forall i :: 0 <= i < |t.events| ==> t.queue[i] == i && t.syncs[i].event == i)
  }

  /** What a call stands for with event `id`: the event of its key, or its own when it has none. */
  predicate Answers(events: seq<EventRow>, id: nat, c: nat, r: Request) {
    && id < |events|
    && events[id].request.key == r.key
    && (Keyed(r) || (events[id].author == c && events[id].request == r))
  }

  ghost predicate CallOk(events: seq<EventRow>, c: nat, call: Call) {
    match call.phase
    case LookingUp => Keyed(call.request) && Find(events, call.request.key.value).Some?
    case Returning(id) => Answers(events, id, c, call.request)
    case Returned(id) => Answers(events, id, c, call.request)
    case _ => true
  }

  ghost predicate Unwritten(p: Phase) {
    p.Checking? || p.ReadingProvider? || p.Inserting? || p.LookingUp?
  }

  ghost predicate OneEach(events: seq<EventRow>) {
    forall i, j :: 0 <= i < |events| && 0 <= j < |events| && events[i].author == events[j].author ==> i == j
  }

  /** A call inserts one event at most, with its own request, and then has it to return. */
  ghost predicate AuthorsOk(st: State) {
    && OneEach(st.tables.events)
    && (forall i :: 0 <= i < |st.tables.events| ==>
          var row := st.tables.events[i];
          row.author in st.calls && row.request == st.calls[row.author].request
          && !Unwritten(st.calls[row.author].phase))
  }

  ghost predicate Inv(st: State) {
    && KeysUnique(st.tables.events)
    && RowsMatch(st.tables)
    && AuthorsOk(st)
    && forall c :: c in st.calls ==> CallOk(st.tables.events, c, st.calls[c])
  }

  /** The transaction fails only on the idempotency key: the two other indexes never object. */
  lemma OnlyTheKeyCollides(t: Tables, r: Request, author: nat, provider: Provider)
    requires RowsMatch(t)
    ensures Transaction(t, r, author, provider) ==
              if r.key.Some? && Find(t.events, r.key.value).Some? then None
              else Some(Tables(t.events + [EventRow(r, author)], t.queue + [|t.events|],
                               t.syncs + [SyncEntry(|t.events|, provider)]))
  {
    hide Find;
    assert |t.events| !in t.queue;
    forall s | s in t.syncs ensures s.event != |t.events| {
      var i :| 0 <= i < |t.syncs| && t.syncs[i] == s;
    }
  }

  lemma AppendKeepsFinds(events: seq<EventRow>, row: EventRow, key: string)
    requires Find(events, key).Some?
    ensures Find(events + [row], key).Some?
  {
    var i := Find(events, key).value;
    assert (events + [row])[i] == events[i];
  }

  lemma AppendKeepsCalls(events: seq<EventRow>, row: EventRow, c: nat, call: Call)
    requires CallOk(events, c, call)
    ensures CallOk(events + [row], c, call)
  {
    if call.phase.LookingUp? {
      AppendKeepsFinds(events, row, call.request.key.value);
    }
    hide Find;
  }

  lemma InsertKeepsInv(st: State, c: nat)
    requires Inv(st) && c in st.calls && st.calls[c].phase.Inserting?
    ensures Inv(AfterInsert(st, c, st.calls[c]))
  {
    var call := st.calls[c];
    OnlyTheKeyCollides(st.tables, call.request, c, call.phase.provider);
    var st' := AfterInsert(st, c, call);
    hide Transaction;
    if st'.tables != st.tables {
      var row := EventRow(call.request, c);
      forall d | d in st.calls ensures CallOk(st.tables.events + [row], d, st.calls[d]) {
        AppendKeepsCalls(st.tables.events, row, d, st.calls[d]);
      }
      hide Find;
      assert st'.tables.events == st.tables.events + [row];
      assert KeysUnique(st'.tables.events);
      hide KeysUnique;
      assert RowsMatch(st'.tables);
      hide RowsMatch;
      hide CallOk;
      assert AuthorsOk(st');
    }
  }

  lemma ReadKeepsInv(st: State, c: nat, integration: Option<Provider>)
    requires Inv(st) && c in st.calls && !st.calls[c].phase.Inserting?
    ensures Inv(Next(st, Turn(c, integration)))
  {
    hide Find, KeysUnique, RowsMatch;
  }

  lemma NextKeepsInv(st: State, e: Event)
    requires Inv(st)
    ensures Inv(Next(st, e))
  {
    hide Find, AfterRead, KeysUnique, RowsMatch, Transaction;
    if e.Turn? && e.call in st.calls {
      if st.calls[e.call].phase.Inserting? {
        InsertKeepsInv(st, e.call);
      } else {
        ReadKeepsInv(st, e.call, e.integration);
      }
    }
  }

  lemma {:induction false} RunKeepsInv(es: seq<Event>)
    ensures Inv(Run(Init, es))
  {
    if es != [] {
      hide Inv, Next;
      RunKeepsInv(es[..|es| - 1]);
      NextKeepsInv(Run(Init, es[..|es| - 1]), es[|es| - 1]);
    }
  }

  // ---- what a run comes to ----

  /** Event `i` has a queue row and a sync row. */
  ghost predicate HasRows(t: Tables, i: nat) {
    && (exists q: nat :: q < |t.queue| && t.queue[q] == i)
    && (exists s: nat :: s < |t.syncs| && t.syncs[s].event == i)
  }

  /** Whatever calls overlap or fail: one event for each key, and one row of each kind for each event. */
  lemma OneEventPerKey(es: seq<Event>)
    ensures var t := Run(Init, es).tables;
            && KeysUnique(t.events) && |t.queue| == |t.events| == |t.syncs|
            && (forall i: nat :: i < |t.events| ==> HasRows(t, i))
            && (forall p: nat, q: nat :: p < |t.queue| && q < |t.queue| && t.queue[p] == t.queue[q] ==> p == q)
            && (forall p: nat, q: nat :: p < |t.syncs| && q < |t.syncs| && t.syncs[p].event == t.syncs[q].event
                  ==> p == q)
  {
    hide Run;
    RunKeepsInv(es);
    var t := Run(Init, es).tables;
    forall i: nat | i < |t.events| ensures HasRows(t, i) {
      assert t.queue[i] == i && t.syncs[i].event == i;
    }
  }

  /** Calls with one key that return, return one event; a call without a key returns an event of its own. */
  lemma CallsAgree(es: seq<Event>, c: nat, d: nat)
    requires var st := Run(Init, es);
             c in st.calls && d in st.calls && st.calls[c].phase.Returned? && st.calls[d].phase.Returned?
    ensures var st := Run(Init, es);
            var (a, b) := (st.calls[c], st.calls[d]);
            && a.phase.id < |st.tables.events|
            && st.tables.events[a.phase.id].request.key == a.request.key
            && (Keyed(a.request) ==> (a.request.key == b.request.key <==> a.phase.id == b.phase.id))
            && (!Keyed(a.request) ==>
                  st.tables.events[a.phase.id] == EventRow(a.request, c) && (a.phase.id == b.phase.id ==> c == d))
  {
    hide Run;
    RunKeepsInv(es);
    var st := Run(Init, es);
    var (a, b) := (st.calls[c], st.calls[d]);
    assert CallOk(st.tables.events, c, a) && CallOk(st.tables.events, d, b);
    assert Answers(st.tables.events, a.phase.id, c, a.request);
    assert Answers(st.tables.events, b.phase.id, d, b.request);
    hide CallOk, Find, AuthorsOk, RowsMatch;
    assert !Keyed(a.request) ==> st.tables.events[a.phase.id] == EventRow(a.request, c);
  }

  /** Rows are only ever added: what an event records is what its first caller asked for. */
  lemma {:induction false} EventsAreFinal(st: State, es: seq<Event>)
    ensures st.tables.events <= Run(st, es).tables.events
    ensures st.tables.queue <= Run(st, es).tables.queue
    ensures st.tables.syncs <= Run(st, es).tables.syncs
  {
    hide Find;
    if es != [] {
      EventsAreFinal(st, es[..|es| - 1]);
    }
  }

  // ---- no call waits for another ----

  function TurnsLeft(p: Phase): nat {
    match p
    case Checking => 5
    case ReadingProvider => 4
    case Inserting(_) => 3
    case LookingUp => 2
    case Returning(_) => 1
    case _ => 0
  }

  function TurnsOf(es: seq<Event>, c: nat): nat {
    if es == [] then 0
    else TurnsOf(es[..|es| - 1], c) + if es[|es| - 1].Turn? && es[|es| - 1].call == c then 1 else 0
  }

  predicate FailsIn(es: seq<Event>, c: nat) {
    exists i :: 0 <= i < |es| && es[i] == Fail(c)
  }

  lemma OneTurn(st: State, e: Event, c: nat)
    requires c in st.calls
    ensures var st' := Next(st, e);
            && c in st'.calls && st'.calls[c].request == st.calls[c].request
            && TurnsLeft(st'.calls[c].phase) <= TurnsLeft(st.calls[c].phase)
            && (e.Turn? && e.call == c && !Finished(st.calls[c].phase) ==>
                  TurnsLeft(st'.calls[c].phase) < TurnsLeft(st.calls[c].phase))
  {
    hide Find, Transaction;
  }

  lemma {:induction false} TurnsRunDown(st: State, es: seq<Event>, c: nat)
    requires c in st.calls
    ensures var st' := Run(st, es);
            && c in st'.calls && st'.calls[c].request == st.calls[c].request
            && (Finished(st'.calls[c].phase)
                || TurnsLeft(st'.calls[c].phase) + TurnsOf(es, c) <= TurnsLeft(st.calls[c].phase))
  {
    hide Next;
    if es != [] {
      TurnsRunDown(st, es[..|es| - 1], c);
      OneTurn(Run(st, es[..|es| - 1]), es[|es| - 1], c);
    }
  }

  /**
   Apart from a failure from outside, a call throws exactly when it comes to insert an event with the empty
   key and there is one already; losing a race never makes it throw.
   */
  lemma ThrowsOnlyOnEmptyKey(st: State, e: Event, c: nat)
    requires Inv(st) && c in st.calls && !Finished(st.calls[c].phase)
    ensures Next(st, e).calls[c].phase.Thrown?
       <==> e == Fail(c)
            || (e.Turn? && e.call == c && st.calls[c].phase.Inserting?
                && st.calls[c].request.key == Some("") && Find(st.tables.events, "").Some?)
  {
    if st.calls[c].phase.Inserting? {
      OnlyTheKeyCollides(st.tables, st.calls[c].request, c, st.calls[c].phase.provider);
      hide Transaction;
    }
    hide Find, KeysUnique, RowsMatch, AuthorsOk;
    assert CallOk(st.tables.events, c, st.calls[c]);
  }

  /** Three turns in a row of a call that finds nothing. */
  function Inserted(st: State, c: nat): State {
    Next(Next(Next(st, Turn(c, None)), Turn(c, None)), Turn(c, None))
  }

  /** The second of two calls with the empty key, which skip the check of keys, throws. */
  lemma EmptyKeyThrows(r: Request)
    requires r.key == Some("")
    ensures var st := Inserted(Next(Inserted(Next(Init, Begin(0, r)), 0), Begin(1, r)), 1);
            && |st.tables.events| == 1 && 0 in st.calls && st.calls[0].phase == Returning(0)
            && 1 in st.calls && st.calls[1].phase == Thrown
  {
    OnlyTheKeyCollides(Init.tables, r, 0, INTERNAL);
    var s1 := Inserted(Next(Init, Begin(0, r)), 0);
    assert s1 == State(Tables([EventRow(r, 0)], [0], [SyncEntry(0, INTERNAL)]), map[0 := Call(r, Returning(0))]);
    OnlyTheKeyCollides(s1.tables, r, 1, INTERNAL);
  }

  lemma FinishedStays(st: State, e: Event, c: nat)
    requires c in st.calls && Finished(st.calls[c].phase)
    ensures Next(st, e).calls[c] == st.calls[c]
  {
    hide Find, Transaction;
  }

  /** A key that is not empty, or no key at all, as every caller in the repository passes, never makes it throw. */
  lemma {:induction false} NeverThrows(st: State, es: seq<Event>, c: nat)
    requires Inv(st) && c in st.calls && !st.calls[c].phase.Thrown?
    requires st.calls[c].request.key != Some("") && !FailsIn(es, c)
    ensures Inv(Run(st, es)) && c in Run(st, es).calls && !Run(st, es).calls[c].phase.Thrown?
  {
    hide Next, Inv;
    if es != [] {
      var before := es[..|es| - 1];
      assert forall i :: 0 <= i < |before| ==> before[i] == es[i];
      NeverThrows(st, before, c);
      TurnsRunDown(st, before, c);
      var st' := Run(st, before);
      NextKeepsInv(st', es[|es| - 1]);
      OneTurn(st', es[|es| - 1], c);
      assert es[|es| - 1] != Fail(c);
      if Finished(st'.calls[c].phase) {
        FinishedStays(st', es[|es| - 1], c);
      } else {
        ThrowsOnlyOnEmptyKey(st', es[|es| - 1], c);
      }
    }
  }

  /**
   Five turns of its own are all a call needs, whatever other calls do in between: it then has its
   event, which holds its key.
   */
  lemma FiveTurnsReturn(before: seq<Event>, es: seq<Event>, c: nat)
    requires c in Run(Init, before).calls && Run(Init, before).calls[c].phase.Checking?
    requires Run(Init, before).calls[c].request.key != Some("")
    requires !FailsIn(es, c) && TurnsOf(es, c) >= 5
    ensures var st := Run(Run(Init, before), es);
            && c in st.calls && st.calls[c].phase.Returned?
            && st.calls[c].phase.id < |st.tables.events|
            && st.tables.events[st.calls[c].phase.id].request.key == Run(Init, before).calls[c].request.key
  {
    RunKeepsInv(before);
    var st0 := Run(Init, before);
    hide Run;
    NeverThrows(st0, es, c);
    TurnsRunDown(st0, es, c);
    var st := Run(st0, es);
    assert CallOk(st.tables.events, c, st.calls[c]);
  }

  lemma {:induction false} RunAppend(st: State, es: seq<Event>, more: seq<Event>)
    ensures Run(st, es + more) == Run(Run(st, es), more)
    decreases |more|
  {
    if more == [] {
      assert es + more == es;
    } else {
      var last := |more| - 1;
      assert (es + more)[..|es + more| - 1] == es + more[..last];
      RunAppend(st, es, more[..last]);
    }
  }

  lemma Extend(es: seq<Event>, e: Event)
    ensures Run(Init, es + [e]) == Next(Run(Init, es), e)
  {
    assert (es + [e])[..|es|] == es;
  }

  /** Steps of other calls. */
  predicate ByOthers(es: seq<Event>, c: nat) {
    forall i :: 0 <= i < |es| ==> es[i].call != c
  }

  lemma {:induction false} OthersLeaveCall(st: State, es: seq<Event>, c: nat)
    requires ByOthers(es, c)
    ensures (c in Run(st, es).calls) == (c in st.calls)
    ensures c in st.calls ==> Run(st, es).calls[c] == st.calls[c]
    decreases |es|
  {
    if es != [] {
      var before := es[..|es| - 1];
      assert forall i :: 0 <= i < |before| ==> before[i] == es[i];
      OthersLeaveCall(st, before, c);
    }
  }

  /**
   The three tables, with the progress of every call. `trace` is the run of the machine that the updates
   amount to.
   */
  class FinancialEventsService {
    var events: seq<EventRow>
    var queue: seq<nat>
    var syncs: seq<SyncEntry>
    var calls: map<nat, Call>
    ghost var trace: seq<Event>

    function St(): State
      reads this
    {
      State(Tables(events, queue, syncs), calls)
    }

    ghost predicate Valid()
      reads this
    {
      St() == Run(Init, trace)
    }

    constructor ()
      ensures Valid() && St() == Init
    {
      events, queue, syncs, calls, trace := [], [], [], map[], [];
    }

    /** What other calls do before the next step of call `c`. */
    method Others(c: nat, es: seq<Event>)
      requires Valid() && ByOthers(es, c)
      modifies this
      ensures Valid()
      ensures (c in calls) == (c in old(calls)) && (c in calls ==> calls[c] == old(calls)[c])
      ensures old(events) <= events && old(syncs) <= syncs
    {
      hide Run, Next;
      EventsAreFinal(St(), es);
      OthersLeaveCall(St(), es, c);
      RunAppend(Init, trace, es);
      var st := Run(St(), es);
      events, queue, syncs, calls := st.tables.events, st.tables.queue, st.tables.syncs, st.calls;
      trace := trace + es;
    }

    /** What has been done since `before` was the machine's step `e`. */
    ghost method Did(before: State, e: Event)
      requires before == Run(Init, trace) && St() == Next(before, e)
      modifies this`trace
      ensures Valid() && trace == old(trace) + [e]
    {
      hide Next;
      Extend(trace, e);
      trace := trace + [e];
    }

    method BeginCall(c: nat, request: Request)
      requires Valid() && c !in calls
      modifies this`calls, this`trace
      ensures Valid() && c in calls && calls[c] == Call(request, Checking)
    {
      ghost var before := St();
      calls := calls[c := Call(request, Checking)];
      hide Run;
      Did(before, Begin(c, request));
    }

    /**
     `findUnique` by idempotency key. At the start of a call it finds the event of the key or nothing;
     after a lost race it always finds the winner.
     */
    method FindByKey(c: nat, key: string) returns (found: Option<nat>)
      requires Valid() && c in calls && calls[c].request.key == Some(key)
      requires (calls[c].phase.Checking? && key != "") || calls[c].phase.LookingUp?
      modifies this`calls, this`trace
      ensures Valid() && c in calls && calls[c].request == old(calls)[c].request
      ensures events == old(events)
      ensures found.Some? ==> found.value < |events| && events[found.value].request.key == Some(key)
      ensures found.Some? ==> events[found.value].author != c
      ensures found.None? ==> forall i :: 0 <= i < |events| ==> events[i].request.key != Some(key)
      ensures old(calls)[c].phase.LookingUp? ==> found.Some?
      ensures calls[c].phase == if found.Some? then Returning(found.value) else ReadingProvider
    {
      ghost var before := St();
      RunKeepsInv(trace);
      assert CallOk(events, c, calls[c]);
      assert AuthorsOk(before);
      found := Find(events, key);
      hide Run, Find;
      calls := calls[c := calls[c].(phase := if found.Some? then Returning(found.value) else ReadingProvider)];
      Did(before, Turn(c, None));
    }

    /** A call without a key has nothing to look up. */
    method SkipLookup(c: nat)
      requires Valid() && c in calls && calls[c].phase.Checking? && !Keyed(calls[c].request)
      modifies this`calls, this`trace
      ensures Valid() && c in calls && calls[c] == old(calls)[c].(phase := ReadingProvider)
    {
      ghost var before := St();
      calls := calls[c := calls[c].(phase := ReadingProvider)];
      hide Run;
      Did(before, Turn(c, None));
    }

    /** The organization's provider, or INTERNAL when it has no integration. */
    method ReadProvider(c: nat, integration: Option<Provider>)
      requires Valid() && c in calls && calls[c].phase.ReadingProvider?
      modifies this`calls, this`trace
      ensures Valid() && c in calls
      ensures calls[c] == old(calls)[c].(phase := Inserting(if integration.Some? then integration.value else INTERNAL))
    {
      ghost var before := St();
      calls := calls[c := calls[c].(phase := Inserting(integration.GetOr(INTERNAL)))];
      hide Run;
      Did(before, Turn(c, integration));
    }

    /**
     The transaction: the three rows, each against its unique index, or none of them. It fails exactly when
     an event has the key; the two other indexes never object.
     */
    method Insert(c: nat) returns (created: Option<nat>)
      requires Valid() && c in calls && calls[c].phase.Inserting?
      modifies this
      ensures Valid() && c in calls && calls[c].request == old(calls)[c].request
      ensures var key := calls[c].request.key;
              created.None? <==> exists i :: 0 <= i < |old(events)| && key.Some? && old(events)[i].request.key == key
      ensures created.Some? ==>
        && created.value == |old(events)| && events == old(events) + [EventRow(calls[c].request, c)]
        && queue == old(queue) + [created.value]
        && syncs == old(syncs) + [SyncEntry(created.value, old(calls)[c].phase.provider)]
        && created.value < |syncs| && syncs[created.value].event == created.value
        && syncs[created.value].provider == old(calls)[c].phase.provider
        && calls[c].phase == Returning(created.value)
      ensures created.None? ==>
        && events == old(events) && queue == old(queue) && syncs == old(syncs)
        && calls[c].phase == if Keyed(calls[c].request) then LookingUp else Thrown
    {
      ghost var before := St();
      var (request, provider) := (calls[c].request, calls[c].phase.provider);
      RunKeepsInv(trace);
      assert RowsMatch(St().tables);
      OnlyTheKeyCollides(St().tables, request, c, provider);
      var id := |events|;
      var taken := if request.key.Some? then Find(events, request.key.value) else None;
      hide Run, Find;
      if taken.None? {
        events, queue, syncs := events + [EventRow(request, c)], queue + [id], syncs + [SyncEntry(id, provider)];
        calls := calls[c := calls[c].(phase := Returning(id))];
        created := Some(id);
      } else {
        calls := calls[c := calls[c].(phase := if Keyed(request) then LookingUp else Thrown)];
        created := None;
      }
      hide Transaction;
      Did(before, Turn(c, None));
    }

    /** `record`, with any steps of other calls before each of its own; no result means that it throws. */
    method Record(c: nat, request: Request, integration: Option<Provider>, others: seq<seq<Event>>)
      returns (event: Option<nat>, ghost inserted: bool)
      requires Valid() && c !in calls && |others| == 5
      requires forall i :: 0 <= i < |others| ==> ByOthers(others[i], c)
      modifies this
      ensures Valid() && c in calls && calls[c].request == request
      ensures event.Some? ==> calls[c].phase == Returned(event.value)
      ensures event.Some? ==> Answers(events, event.value, c, request)
      ensures event.None? ==> calls[c].phase == Thrown && request.key == Some("")
      ensures event.Some? ==> event.value < |events| && (inserted <==> events[event.value].author == c)
      ensures inserted ==> event.Some? && event.value < |syncs|
      ensures inserted ==> syncs[event.value] == SyncEntry(event.value, integration.GetOr(INTERNAL))
    {
      hide Run, Next, Answers, ByOthers, FinancialEventsService.Valid, FinancialEventsService.St, Find, SameKey;
      BeginCall(c, request);
      Others(c, others[0]);
      if Keyed(request) {
        var existing := FindByKey(c, request.key.value);
        if existing.Some? {
          Return(c, others[1]);
          return existing, false;
        }
      } else {
        SkipLookup(c);
      }
      Others(c, others[1]);
      event, inserted := CreateOrFind(c, request, integration, others);
    }

    /** The provider, the transaction and, when that loses a race, the winner. */
    method CreateOrFind(c: nat, request: Request, integration: Option<Provider>, others: seq<seq<Event>>)
      returns (event: Option<nat>, ghost inserted: bool)
      requires Valid() && c in calls && calls[c] == Call(request, ReadingProvider) && |others| == 5
      requires forall i :: 0 <= i < |others| ==> ByOthers(others[i], c)
      modifies this
      ensures Valid() && c in calls && calls[c].request == request
      ensures event.Some? ==> calls[c].phase == Returned(event.value)
      ensures event.Some? ==> Answers(events, event.value, c, request)
      ensures event.None? ==> calls[c].phase == Thrown && request.key == Some("")
      ensures event.Some? ==> event.value < |events| && (inserted <==> events[event.value].author == c)
      ensures inserted ==> event.Some? && event.value < |syncs|
      ensures inserted ==> syncs[event.value] == SyncEntry(event.value, integration.GetOr(INTERNAL))
    {
      hide Run, Next, Answers, ByOthers, FinancialEventsService.Valid, FinancialEventsService.St, Find, SameKey;
      ReadProvider(c, integration);
      Others(c, others[2]);
      var created := Insert(c);
      if created.None? {
        if !Keyed(request) {
          return None, false;
        }
        Others(c, others[3]);
        var winner := FindByKey(c, request.key.value);
        Return(c, others[4]);
        return winner, false;
      }
      Return(c, others[3]);
      return created, true;
    }

    /** `getWithSync` on the event the call has come to. */
    method Return(c: nat, others: seq<Event>)
      requires Valid() && c in calls && calls[c].phase.Returning? && ByOthers(others, c)
      requires calls[c].phase.id < |events|
      modifies this
      ensures Valid() && c in calls && calls[c].request == old(calls)[c].request
      ensures calls[c].phase == Returned(old(calls)[c].phase.id)
      ensures Answers(events, calls[c].phase.id, c, calls[c].request) && calls[c].phase.id < |events|
      ensures events[calls[c].phase.id].author == old(events)[calls[c].phase.id].author && old(syncs) <= syncs
    {
      hide Run;
      Others(c, others);
      ghost var before := St();
      calls := calls[c := calls[c].(phase := Returned(calls[c].phase.id))];
      Did(before, Turn(c, None));
      RunKeepsInv(trace);
      assert CallOk(events, c, calls[c]);
    }
  }
}
