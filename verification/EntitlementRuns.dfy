/** Runs of grant operations: after each of them the cache rows that it concerns are computed afresh. */
module EntitlementRuns {
  import opened Common
  import opened Entitlements
  import opened EntitlementSync

  const UUID_LENGTH := 36

  datatype GrantDraft = GrantDraft(definition: string, application: string, source: Option<Source>,
                                   values: Values, isUnlimited: Option<bool>, validUntil: Option<int>)

  /** `touched` tells, for each triple, when its cache row was last computed. */
  datatype Store = Store(grants: seq<Grant>, access: map<Triple, Access>, touched: map<Triple, int>, clock: int)

  datatype Op =
    | Create(organization: string, draft: GrantDraft, now: int)
    | Revoke(id: nat, organization: string, now: int)
    | Sync(found: Option<Subscription>, now: int)
    | Wait(now: int)

  /** The application of each definition. */
  type Catalog = map<string, string>

  /** The organization and application of each subscription, which never change. */
  type Home = string -> (string, string)

  const Init := Store([], map[], map[], 0)

  ghost function Winner(grants: seq<Grant>, t: Triple, now: int): Option<nat> {
    if exists i: nat :: IsWinner(grants, t, now, i) then
      var i: nat :| IsWinner(grants, t, now, i);
      Some(i)
    else None
  }

  /** The upsert of the winner's values, or the deletion of the row. */
  ghost function Recomputed(st: Store, t: Triple): Store {
    var w := Winner(st.grants, t, st.clock);
    st.(access := if w.Some? then st.access[t := AccessOf(st.grants, w.value)] else st.access - {t},
        touched := st.touched[t := st.clock])
  }

  function Drafted(organization: string, d: GrantDraft, now: int): Grant {
    Grant(Triple(organization, d.application, d.definition), d.source.GetOr(MANUAL), Status.ACTIVE,
          d.values, d.isUnlimited.GetOr(false), now, d.validUntil, now, None, None, 1)
  }

  predicate Known(catalog: Catalog, d: GrantDraft) {
    d.definition in catalog && catalog[d.definition] == d.application
  }

  predicate Revocable(grants: seq<Grant>, id: nat, organization: string) {
    id < |grants| && grants[id].triple.organization == organization && grants[id].status.ACTIVE?
  }

  function TripleOf(sub: Subscription, item: Item): Triple {
    Triple(sub.organization, sub.application, item.definition)
  }

  /** One round of the inner loop: the grant of one definition, then its cached answer. */
  ghost function Round(st: Store, sub: Subscription, item: Item): Store {
    Recomputed(st.(grants := SyncStep(st.grants, sub, item, st.clock)), TripleOf(sub, item))
  }

  ghost function RoundsOf(st: Store, sub: Subscription, items: seq<Item>): Store {
    if items == [] then st else Round(RoundsOf(st, sub, items[..|items| - 1]), sub, items[|items| - 1])
  }

  function AllItems(sub: Subscription): seq<Item> {
    Items(sub.plan, |sub.plan|)
  }

  ghost function Next(catalog: Catalog, st: Store, op: Op): Store {
    var st1 := st.(clock := op.now);
    match op
    case Create(organization, d, now) =>
      if !Known(catalog, d) then st1
      else
        var g := Drafted(organization, d, now);
        Recomputed(st1.(grants := st.grants + [g]), g.triple)
    case Revoke(id, organization, _) =>
      if !Revocable(st.grants, id, organization) then st1
      else
        var g := st.grants[id].(status := Status.REVOKED);
        Recomputed(st1.(grants := st.grants[id := g]), g.triple)
    case Sync(found, _) => if found.None? then st1 else RoundsOf(st1, found.value, AllItems(found.value))
    case Wait(_) => st1
  }

  ghost function Run(catalog: Catalog, ops: seq<Op>): Store {
    if ops == [] then Init else Next(catalog, Run(catalog, ops[..|ops| - 1]), ops[|ops| - 1])
  }

  /**
   Time does not go back, subscription ids are UUIDs, and no operation creates a grant at the instant at
   which another one of its triple and source was created.
   */
  ghost predicate GoodOp(catalog: Catalog, home: Home, st: Store, op: Op) {
    && st.clock <= op.now
    && match op
       case Create(organization, d, now) =>
         Known(catalog, d) ==> NoTies(st.grants + [Drafted(organization, d, now)])
       case Sync(found, now) =>
         found.Some? ==>
           && AtHome(home, found.value)
           && NoTies(SyncAll(st.grants, found.value, AllItems(found.value), now))
       case _ => true
  }

  predicate AtHome(home: Home, sub: Subscription) {
    |sub.id| == UUID_LENGTH && home(sub.id) == (sub.organization, sub.application)
  }

  ghost predicate GoodRun(catalog: Catalog, home: Home, ops: seq<Op>) {
    ops == [] ||
    (var (before, op) := (ops[..|ops| - 1], ops[|ops| - 1]);
     GoodRun(catalog, home, before) && GoodOp(catalog, home, Run(catalog, before), op))
  }

  // ---- what every operation keeps ----

  /** A keyed grant is of the subscription and definition its key names, in the subscription's home. */
  ghost predicate KeyedOk(g: Grant, home: Home) {
    g.key.Some? ==>
      && g.subscription.Some? && |g.subscription.value| == UUID_LENGTH
      && g.key.value == KeyFor(g.subscription.value, g.triple.definition)
      && home(g.subscription.value) == (g.triple.organization, g.triple.application)
  }

  ghost predicate GrantsOk(grants: seq<Grant>, home: Home) {
    && NoTies(grants) && KeysUnique(grants)
    && (forall i: nat :: i < |grants| ==> KeyedOk(grants[i], home))
  }

  /** The row of `t` agrees with the grants as of its last computation, or there is nothing about `t`. */
  ghost predicate RowOk(grants: seq<Grant>, access: map<Triple, Access>, computed: map<Triple, int>,
                        clock: int, t: Triple) {
    if t in computed then computed[t] <= clock && RowAgrees(grants, access, t, computed[t])
    else t !in access && forall i: nat :: i < |grants| ==> grants[i].triple != t
  }

  /** All rows but perhaps that of `except` are as they should be. */
  ghost predicate RowsOk(grants: seq<Grant>, access: map<Triple, Access>, computed: map<Triple, int>,
                         clock: int, except: Option<Triple>) {
    forall t: Triple :: Some(t) != except ==> RowOk(grants, access, computed, clock, t)
  }

  /** Only grants of `t` are written or added. */
  ghost predicate OnlyOf(grants: seq<Grant>, grants': seq<Grant>, t: Triple) {
    && |grants| <= |grants'|
    && (forall i: nat :: i < |grants| ==> grants'[i].triple == grants[i].triple)
    && (forall i: nat :: i < |grants'| && grants'[i].triple != t ==>
          i < |grants| && grants'[i] == grants[i])
  }

  lemma OtherRowsStayOk(grants: seq<Grant>, grants': seq<Grant>, access: map<Triple, Access>,
                        computed: map<Triple, int>, clock: int, clock': int, t: Triple)
    requires RowsOk(grants, access, computed, clock, None) && clock <= clock'
    requires OnlyOf(grants, grants', t)
    ensures RowsOk(grants', access, computed, clock', Some(t))
  {
    forall u: Triple | u != t ensures RowOk(grants', access, computed, clock', u) {
      assert RowOk(grants, access, computed, clock, u);
      if u in computed {
        forall i: nat | i < |grants'|
          ensures if i < |grants| && grants[i].triple == u then grants'[i] == grants[i]
                  else grants'[i].triple != u
        {
          assert i < |grants| ==> grants'[i].triple == grants[i].triple;
        }
        OthersKeepAgreement(grants, grants', access, access, u, computed[u]);
      }
    }
  }

  /** Rewriting the row of `t` alone leaves the others as they were. */
  lemma RowsOkWithRow(grants: seq<Grant>, access: map<Triple, Access>, access': map<Triple, Access>,
                      computed: map<Triple, int>, now: int, t: Triple)
    requires RowsOk(grants, access, computed, now, Some(t))
    requires forall u: Triple :: u != t ==>
               (u in access <==> u in access') && (u in access ==> access[u] == access'[u])
    requires RowAgrees(grants, access', t, now)
    ensures RowsOk(grants, access', computed[t := now], now, None)
  {
    var computed' := computed[t := now];
    forall u: Triple ensures RowOk(grants, access', computed', now, u) {
      if u != t {
        assert RowOk(grants, access, computed, now, u);
        if u in computed {
          SameRowAgrees(grants, access, access', u, computed[u]);
        }
      }
    }
  }

  lemma SameRowAgrees(grants: seq<Grant>, access: map<Triple, Access>, access': map<Triple, Access>,
                      u: Triple, at: int)
    requires RowAgrees(grants, access, u, at)
    requires (u in access <==> u in access') && (u in access ==> access[u] == access'[u])
    ensures RowAgrees(grants, access', u, at)
  {
  }

  ghost predicate Inv(home: Home, st: Store) {
    GrantsOk(st.grants, home) && RowsOk(st.grants, st.access, st.touched, st.clock, None)
  }

  lemma AppendKeepsGrantsOk(grants: seq<Grant>, g: Grant, home: Home)
    requires GrantsOk(grants, home) && KeyedOk(g, home)
    requires NoTies(grants + [g])
    requires g.key.Some? ==> forall i: nat :: i < |grants| ==> grants[i].key != g.key
    ensures GrantsOk(grants + [g], home)
  {
  }

  /** A grant's status, values and version may be rewritten. */
  lemma RewriteKeepsGrantsOk(grants: seq<Grant>, i: nat, g: Grant, home: Home)
    requires GrantsOk(grants, home) && i < |grants|
    requires g == grants[i].(status := g.status, values := g.values, version := g.version)
    ensures GrantsOk(grants[i := g], home)
  {
    var grants' := grants[i := g];
    forall k: nat | k < |grants'|
      ensures grants'[k].triple == grants[k].triple && grants'[k].source == grants[k].source
              && grants'[k].createdAt == grants[k].createdAt && grants'[k].key == grants[k].key
              && grants'[k].subscription == grants[k].subscription
    {
    }
    hide KeyFor;
  }

  lemma WinnerIs(grants: seq<Grant>, t: Triple, now: int, i: nat)
    requires IsWinner(grants, t, now, i)
    ensures Winner(grants, t, now) == Some(i)
  {
  }

  /** With no ties, where there are candidates there is a winner. */
  lemma SomeoneWins(grants: seq<Grant>, t: Triple, now: int, n: nat, i: nat) returns (w: nat)
    requires NoTies(grants) && i < n <= |grants| && Candidate(grants, t, now, i)
    ensures w < n && Candidate(grants, t, now, w)
    ensures forall j: nat :: j < n && Candidate(grants, t, now, j) && j != w ==> Beats(grants[w], grants[j])
  {
    w := i;
    var k := 0;
    while k < n
      invariant k <= n && w < n && Candidate(grants, t, now, w)
      invariant forall j: nat :: j < k && Candidate(grants, t, now, j) && j != w ==> Beats(grants[w], grants[j])
    {
      if k != w && Candidate(grants, t, now, k) {
        TwoDiffer(grants, t, now, w, k);
        if Beats(grants[k], grants[w]) {
          w := k;
        }
      }
      k := k + 1;
    }
  }

  lemma RecomputedAgrees(st: Store, t: Triple)
    requires NoTies(st.grants)
    ensures RowAgrees(st.grants, Recomputed(st, t).access, t, st.clock)
  {
    if i: nat :| Candidate(st.grants, t, st.clock, i) {
      var w := SomeoneWins(st.grants, t, st.clock, |st.grants|, i);
      assert IsWinner(st.grants, t, st.clock, w);
    }
  }

  lemma RecomputedKeepsInv(home: Home, st: Store, t: Triple)
    requires GrantsOk(st.grants, home)
    requires RowsOk(st.grants, st.access, st.touched, st.clock, Some(t))
    ensures Inv(home, Recomputed(st, t))
  {
    RecomputedAgrees(st, t);
    var st' := Recomputed(st, t);
    assert forall u: Triple :: u != t ==>
             (u in st.access <==> u in st'.access) && (u in st.access ==> st.access[u] == st'.access[u]);
    hide RowAgrees, RowOk, GrantsOk;
    RowsOkWithRow(st.grants, st.access, st'.access, st.touched, st.clock, t);
  }

  lemma WaitingKeepsInv(home: Home, st: Store, now: int)
    requires Inv(home, st) && st.clock <= now
    ensures Inv(home, st.(clock := now))
  {
    forall t: Triple ensures RowOk(st.grants, st.access, st.touched, now, t) {
      assert RowOk(st.grants, st.access, st.touched, st.clock, t);
    }
  }

  /** Grants of one triple are written or added, and then its row is computed. */
  lemma WriteKeepsInv(home: Home, st: Store, grants: seq<Grant>, t: Triple)
    requires Inv(home, st) && GrantsOk(grants, home) && OnlyOf(st.grants, grants, t)
    ensures Inv(home, Recomputed(st.(grants := grants), t))
  {
    hide GrantsOk, RowOk, OnlyOf, Recomputed;
    OtherRowsStayOk(st.grants, grants, st.access, st.touched, st.clock, st.clock, t);
    RecomputedKeepsInv(home, st.(grants := grants), t);
  }

  lemma CreateKeepsInv(catalog: Catalog, home: Home, st: Store, op: Op)
    requires Inv(home, st) && GoodOp(catalog, home, st, op) && op.Create?
    ensures Inv(home, Next(catalog, st, op))
  {
    hide RowOk, Recomputed, NoTies;
    WaitingKeepsInv(home, st, op.now);
    if Known(catalog, op.draft) {
      var g := Drafted(op.organization, op.draft, op.now);
      AppendKeepsGrantsOk(st.grants, g, home);
      WriteKeepsInv(home, st.(clock := op.now), st.grants + [g], g.triple);
    }
  }

  lemma RevokeKeepsInv(catalog: Catalog, home: Home, st: Store, op: Op)
    requires Inv(home, st) && GoodOp(catalog, home, st, op) && op.Revoke?
    ensures Inv(home, Next(catalog, st, op))
  {
    hide RowOk, Recomputed, NoTies;
    WaitingKeepsInv(home, st, op.now);
    if Revocable(st.grants, op.id, op.organization) {
      var g := st.grants[op.id].(status := Status.REVOKED);
      RewriteKeepsGrantsOk(st.grants, op.id, g, home);
      WriteKeepsInv(home, st.(clock := op.now), st.grants[op.id := g], g.triple);
    }
  }

  /** A sync writes only grants of its round's triple, because keys tell what they are for. */
  lemma RoundWritesItsTriple(home: Home, grants: seq<Grant>, sub: Subscription, item: Item, now: int)
    requires GrantsOk(grants, home) && AtHome(home, sub) && NoTies(SyncStep(grants, sub, item, now))
    ensures var grants' := SyncStep(grants, sub, item, now);
            GrantsOk(grants', home) && OnlyOf(grants, grants', TripleOf(sub, item))
  {
    var key := KeyFor(sub.id, item.definition);
    var existing := FindKey(grants, key);
    hide RowOk, KeyFor;
    if existing.Some? {
      var i := existing.value;
      KeysIdentify(grants[i].subscription.value, grants[i].triple.definition, sub.id, item.definition);
      hide NoTies, KeysUnique;
      RewriteKeepsGrantsOk(grants, i, Applied(grants[i], sub, item), home);
    } else if Entitled(sub) {
      hide NoTies;
      AppendKeepsGrantsOk(grants, NewGrant(sub, item, now), home);
    }
  }

  lemma RoundKeepsInv(home: Home, st: Store, sub: Subscription, item: Item)
    requires Inv(home, st) && AtHome(home, sub) && NoTies(SyncStep(st.grants, sub, item, st.clock))
    ensures Inv(home, Round(st, sub, item))
  {
    hide RowOk, GrantsOk, Recomputed, NoTies, SyncStep;
    RoundWritesItsTriple(home, st.grants, sub, item, st.clock);
    WriteKeepsInv(home, st, SyncStep(st.grants, sub, item, st.clock), TripleOf(sub, item));
  }

  /** A grant keeps what ties are made of. */
  predicate SameBirth(g: Grant, g': Grant) {
    g'.triple == g.triple && g'.source == g.source && g'.createdAt == g.createdAt
  }

  lemma TiesWouldStay(grants: seq<Grant>, grants': seq<Grant>)
    requires |grants| <= |grants'| && NoTies(grants')
    requires forall i: nat :: i < |grants| ==> SameBirth(grants[i], grants'[i])
    ensures NoTies(grants)
  {
    forall i: nat, j: nat | i < j < |grants| && grants[i].triple == grants[j].triple
                            && grants[i].source == grants[j].source
      ensures grants[i].createdAt != grants[j].createdAt
    {
      assert SameBirth(grants[i], grants'[i]) && SameBirth(grants[j], grants'[j]);
    }
  }

  lemma StepKeepsBirths(grants: seq<Grant>, sub: Subscription, item: Item, now: int)
    ensures var grants' := SyncStep(grants, sub, item, now);
            && |grants| <= |grants'|
            && forall i: nat :: i < |grants| ==> SameBirth(grants[i], grants'[i])
  {
    hide KeyFor;
  }

  lemma {:induction false} RoundsKeepInv(home: Home, st: Store, sub: Subscription, items: seq<Item>)
    requires Inv(home, st) && AtHome(home, sub) && NoTies(SyncAll(st.grants, sub, items, st.clock))
    ensures var st' := RoundsOf(st, sub, items);
            && Inv(home, st') && st'.clock == st.clock
            && st'.grants == SyncAll(st.grants, sub, items, st.clock)
  {
    if items != [] {
      var (before, last) := (items[..|items| - 1], items[|items| - 1]);
      var grants := SyncAll(st.grants, sub, before, st.clock);
      StepKeepsBirths(grants, sub, last, st.clock);
      TiesWouldStay(grants, SyncStep(grants, sub, last, st.clock));
      hide Inv, NoTies, SyncStep, SameBirth;
      RoundsKeepInv(home, st, sub, before);
      RoundKeepsInv(home, RoundsOf(st, sub, before), sub, last);
    }
  }

  lemma NextKeepsInv(catalog: Catalog, home: Home, st: Store, op: Op)
    requires Inv(home, st) && GoodOp(catalog, home, st, op)
    ensures Inv(home, Next(catalog, st, op)) && Next(catalog, st, op).clock == op.now
  {
    hide Inv, Winner, RoundsOf;
    match op
    case Create(_, _, _) => CreateKeepsInv(catalog, home, st, op);
    case Revoke(_, _, _) => RevokeKeepsInv(catalog, home, st, op);
    case Sync(found, now) =>
      WaitingKeepsInv(home, st, now);
      if found.Some? {
        RoundsKeepInv(home, st.(clock := now), found.value, AllItems(found.value));
      }
    case Wait(now) => WaitingKeepsInv(home, st, now);
  }

  lemma {:induction false} RunKeepsInv(catalog: Catalog, home: Home, ops: seq<Op>)
    requires GoodRun(catalog, home, ops)
    ensures Inv(home, Run(catalog, ops))
  {
    if ops != [] {
      hide Inv, Next, GoodOp;
      RunKeepsInv(catalog, home, ops[..|ops| - 1]);
      NextKeepsInv(catalog, home, Run(catalog, ops[..|ops| - 1]), ops[|ops| - 1]);
    }
  }

  // ---- when a row was last computed ----

  predicate Concerns(sub: Subscription, items: seq<Item>, t: Triple) {
    exists k :: 0 <= k < |items| && TripleOf(sub, items[k]) == t
  }

  /** The operation writes grants of `t`, or would. */
  predicate Touches(catalog: Catalog, grants: seq<Grant>, op: Op, t: Triple) {
    match op
    case Create(organization, d, _) =>
      Known(catalog, d) && t == Triple(organization, d.application, d.definition)
    case Revoke(id, organization, _) => Revocable(grants, id, organization) && t == grants[id].triple
    case Sync(found, _) => found.Some? && Concerns(found.value, AllItems(found.value), t)
    case Wait(_) => false
  }

  ghost function LastTouch(catalog: Catalog, ops: seq<Op>, t: Triple): Option<int> {
    if ops == [] then None
    else
      var (before, op) := (ops[..|ops| - 1], ops[|ops| - 1]);
      if Touches(catalog, Run(catalog, before).grants, op, t) then Some(op.now) else LastTouch(catalog, before, t)
  }

  function Lookup(m: map<Triple, int>, t: Triple): Option<int> {
    if t in m then Some(m[t]) else None
  }

  lemma {:induction false} RoundsTouch(st: Store, sub: Subscription, items: seq<Item>, t: Triple)
    ensures var st' := RoundsOf(st, sub, items);
            && st'.clock == st.clock
            && Lookup(st'.touched, t) == if Concerns(sub, items, t) then Some(st.clock) else Lookup(st.touched, t)
  {
    hide Winner, SyncStep;
    if items != [] {
      var before := items[..|items| - 1];
      RoundsTouch(st, sub, before, t);
      assert TripleOf(sub, items[|items| - 1]) == t ==> Concerns(sub, items, t);
      if Concerns(sub, before, t) {
        var k :| 0 <= k < |before| && TripleOf(sub, before[k]) == t;
        assert items[k] == before[k];
      }
    }
  }

  lemma {:induction false} TouchedIsLastTouch(catalog: Catalog, ops: seq<Op>, t: Triple)
    ensures Lookup(Run(catalog, ops).touched, t) == LastTouch(catalog, ops, t)
  {
    hide Winner, RoundsOf, Concerns;
    if ops != [] {
      var (before, op) := (ops[..|ops| - 1], ops[|ops| - 1]);
      TouchedIsLastTouch(catalog, before, t);
      if op.Sync? && op.found.Some? {
        RoundsTouch(Run(catalog, before).(clock := op.now), op.found.value, AllItems(op.found.value), t);
      }
    }
  }

  function Cached(access: map<Triple, Access>, t: Triple): CheckResult {
    if t in access then Answer(access[t]) else Denied
  }

  /** What the cached answer about `t` is worth when its row was last computed at time `at`. */
  ghost predicate AnswersAt(st: Store, t: Triple, at: Option<int>) {
    if at.None? then Cached(st.access, t) == Denied && Resolves(st.grants, t, st.clock, Denied)
    else
      && at.value <= st.clock
      && Resolves(st.grants, t, at.value, Cached(st.access, t))
      && (RowAgrees(st.grants, st.access, t, st.clock)
          <==> StillRight(st.grants, st.access, t, at.value, st.clock))
      && (StillRight(st.grants, st.access, t, at.value, st.clock)
          ==> Resolves(st.grants, t, st.clock, Cached(st.access, t)))
      && (Uncrossed(st.grants, t, at.value, st.clock)
          ==> Resolves(st.grants, t, st.clock, Cached(st.access, t)))
  }

  /**
   After any run of grants created and revoked, subscriptions synced and time passing, the cached answer
   is what resolving the grants as they are now would have given when an operation last touched them;
   the row is what it would give at this moment exactly while its grant has not run out and no stronger
   one has begun since, so in particular while no bound was crossed.
   */
  lemma CacheAgrees(catalog: Catalog, home: Home, ops: seq<Op>, t: Triple)
    requires GoodRun(catalog, home, ops)
    ensures AnswersAt(Run(catalog, ops), t, LastTouch(catalog, ops, t))
  {
    RunKeepsInv(catalog, home, ops);
    TouchedIsLastTouch(catalog, ops, t);
    RowAnswers(home, Run(catalog, ops), t);
  }

  lemma RowAnswers(home: Home, st: Store, t: Triple)
    requires Inv(home, st)
    ensures AnswersAt(st, t, Lookup(st.touched, t))
  {
    assert RowOk(st.grants, st.access, st.touched, st.clock, t);
    if t in st.touched {
      var at := st.touched[t];
      assert RowAgrees(st.grants, st.access, t, at) && NoTies(st.grants);
      hide RowAgrees, NoTies, Resolves, StillRight, Uncrossed, KeysUnique, KeyedOk;
      RowStaysRight(st.grants, st.access, t, at, st.clock);
      AgreementResolves(st.grants, st.access, t, at);
      if RowAgrees(st.grants, st.access, t, st.clock) {
        AgreementResolves(st.grants, st.access, t, st.clock);
      }
      if Uncrossed(st.grants, t, at, st.clock) {
        UncrossedKeepsAnswer(st.grants, t, at, st.clock, Cached(st.access, t));
      }
    }
  }

  /** An operation that touches `t` leaves the answer a fresh resolution gives there and then. */
  lemma AnswersAtOnce(catalog: Catalog, home: Home, ops: seq<Op>, op: Op, t: Triple)
    requires GoodRun(catalog, home, ops) && GoodOp(catalog, home, Run(catalog, ops), op)
    requires Touches(catalog, Run(catalog, ops).grants, op, t)
    ensures var st := Next(catalog, Run(catalog, ops), op);
            Resolves(st.grants, t, st.clock, Cached(st.access, t))
  {
    var after := ops + [op];
    assert after[..|ops|] == ops;
    hide Next, GoodOp, Touches, Resolves;
    RunKeepsInv(catalog, home, ops);
    NextKeepsInv(catalog, home, Run(catalog, ops), op);
    CacheAgrees(catalog, home, after, t);
  }
}
