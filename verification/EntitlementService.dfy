/** The grant operations and the runtime check over one database of grants and cached answers. */
module EntitlementService {
  import opened Common
  import opened Entitlements
  import opened EntitlementSync
  import opened EntitlementRuns

  datatype Outcome = Done(id: nat) | NotFound | BadRequest

  class EntitlementStore {
    /** The definition ids by application and key, and the application of each definition. */
    const definitions: map<(string, string), string>
    const catalog: Catalog
    ghost const home: Home

    var grants: seq<Grant>
    var access: map<Triple, Access>
    var clock: int
    ghost var touched: map<Triple, int>
    ghost var trace: seq<Op>

    ghost function St(): Store
      reads this
    {
      Store(grants, access, touched, clock)
    }

    /** The store is where the operations in `trace` lead. */
    ghost predicate Valid()
      reads this
    {
      Run(catalog, trace) == St() && GoodRun(catalog, home, trace)
    }

    constructor (definitions: map<(string, string), string>, catalog: Catalog, ghost home: Home)
      ensures Valid() && grants == [] && access == map[] && trace == []
      ensures this.definitions == definitions && this.catalog == catalog && this.home == home
    {
      this.definitions, this.catalog, this.home := definitions, catalog, home;
      grants, access, clock, touched, trace := [], map[], 0, map[], [];
    }

    /** One more operation has been done. */
    ghost method Did(op: Op, before: Store)
      requires Run(catalog, trace) == before && GoodRun(catalog, home, trace)
      requires GoodOp(catalog, home, before, op) && St() == Next(catalog, before, op)
      modifies this`trace
      ensures Valid() && trace == old(trace) + [op]
    {
      hide Next, GoodOp;
      assert (trace + [op])[..|trace|] == trace;
      trace := trace + [op];
    }

    /** The candidates of `t`; callers learn nothing about their order. */
    method FindCandidates(t: Triple) returns (order: seq<nat>)
      ensures Enumerates(order, grants, t, clock)
    {
      order := [];
      var i := 0;
      while i < |grants|
        invariant 0 <= i <= |grants|
        invariant forall k: nat :: k in order <==> k < i && Candidate(grants, t, clock, k)
      {
        if Candidate(grants, t, clock, i) {
          order := [i] + order;
        }
        i := i + 1;
      }
    }

    /** Recomputes the row of `t`: the upsert of the winner's values, or the deletion of the row. */
    method Recompute(t: Triple)
      requires NoTies(grants)
      modifies this`access, this`touched
      ensures St() == Recomputed(old(St()), t)
      ensures RowAgrees(grants, access, t, clock)
    {
      RecomputedAgrees(St(), t);
      var candidates := FindCandidates(t);
      var winner := PickWinner(grants, t, clock, candidates);
      hide NoTies, Candidate, AccessOf, RowAgrees, Enumerates;
      if winner.Some? {
        WinnerIs(grants, t, clock, winner.value);
        access := access[t := AccessOf(grants, winner.value)];
      } else {
        NobodyWins(grants, t, clock);
        access := access - {t};
      }
      touched := touched[t := clock];
    }

    /**
     The runtime check, which only reads the cache: it answers as a fresh resolution would have when an
     operation last touched the triple, and as one would now unless a bound was crossed since.
     */
    method HasEntitlement(organization: string, application: string, key: string)
      returns (r: CheckResult)
      requires Valid()
      ensures (application, key) !in definitions ==> r == Denied
      ensures (application, key) in definitions ==>
                var t := Triple(organization, application, definitions[(application, key)]);
                r == Cached(access, t) && AnswersAt(St(), t, LastTouch(catalog, trace, t))
    {
      if (application, key) !in definitions {
        return Denied;
      }
      var t := Triple(organization, application, definitions[(application, key)]);
      CacheAgrees(catalog, home, trace, t);
      r := if t in access then Answer(access[t]) else Denied;
    }

    /** A new grant, by default a manual one; its answer is the fresh resolution from here on. */
    method CreateGrant(organization: string, d: GrantDraft, now: int) returns (r: Outcome)
      requires Valid() && GoodOp(catalog, home, St(), Op.Create(organization, d, now))
      modifies this
      ensures Valid() && trace == old(trace) + [Op.Create(organization, d, now)]
      ensures clock == now
      ensures r == if d.definition in catalog && catalog[d.definition] == d.application then Done(|old(grants)|)
                   else NotFound
      ensures grants == old(grants) + if r.Done? then [Drafted(organization, d, now)] else []
      ensures r.Done? ==> |grants| == |old(grants)| + 1 && AsDrafted(organization, d, grants[|old(grants)|], now)
      ensures r.Done? ==>
        var t := Triple(organization, d.application, d.definition);
        touched == old(touched)[t := now] && Resolves(grants, t, now, Cached(access, t))
      ensures !r.Done? ==> touched == old(touched) && access == old(access)
    {
      ghost var op := Op.Create(organization, d, now);
      ghost var before := St();
      clock := now;
      if d.definition !in catalog || catalog[d.definition] != d.application {
        Did(op, before);
        return NotFound;
      }
      var g := Drafted(organization, d, now);
      r := Done(|grants|);
      grants := grants + [g];
      Recompute(g.triple);
      AgreementResolves(grants, access, g.triple, now);
      hide Recomputed, NoTies, Resolves;
      Did(op, before);
    }

    /** An active grant of the organization is revoked; the cache follows. */
    method RevokeGrant(id: nat, organization: string, now: int) returns (r: Outcome)
      requires Valid() && clock <= now
      modifies this
      ensures Valid() && trace == old(trace) + [Op.Revoke(id, organization, now)] && clock == now
      ensures r == if id >= |old(grants)| || old(grants)[id].triple.organization != organization
                   then NotFound
                   else if old(grants)[id].status.ACTIVE? then Done(id) else BadRequest
      ensures grants == if r.Done? then old(grants)[id := old(grants)[id].(status := Status.REVOKED)]
                        else old(grants)
      ensures r.Done? ==>
        var t := old(grants)[id].triple;
        touched == old(touched)[t := now] && Resolves(grants, t, now, Cached(access, t))
      ensures !r.Done? ==> touched == old(touched) && access == old(access)
    {
      ghost var op := Op.Revoke(id, organization, now);
      ghost var before := St();
      RunKeepsInv(catalog, home, trace);
      clock := now;
      if id >= |grants| || grants[id].triple.organization != organization {
        Did(op, before);
        return NotFound;
      }
      if !grants[id].status.ACTIVE? {
        Did(op, before);
        return BadRequest;
      }
      var g := grants[id].(status := Status.REVOKED);
      RewriteKeepsGrantsOk(grants, id, g, home);
      grants := grants[id := g];
      Recompute(g.triple);
      AgreementResolves(grants, access, g.triple, now);
      hide Recomputed, NoTies, Resolves;
      Did(op, before);
      r := Done(id);
    }

    /** Time passes. */
    method Wait(now: int)
      requires Valid() && clock <= now
      modifies this`clock, this`trace
      ensures Valid() && clock == now && trace == old(trace) + [Op.Wait(now)]
    {
      ghost var before := St();
      clock := now;
      Did(Op.Wait(now), before);
    }

    /** One round of the inner loop: the grant of one definition, then its cached answer. */
    method SyncRound(sub: Subscription, item: Item)
      requires NoTies(SyncStep(grants, sub, item, clock))
      modifies this`grants, this`access, this`touched
      ensures St() == Round(old(St()), sub, item)
    {
      var existing := FindKey(grants, KeyFor(sub.id, item.definition));
      ghost var was := grants;
      if existing.Some? {
        var g := grants[existing.value];
        if !Entitled(sub) {
          if g.status.ACTIVE? {
            grants := grants[existing.value := g.(status := Status.REVOKED)];
          }
        } else {
          grants := grants[existing.value :=
            g.(status := Status.ACTIVE, values := item.values, version := g.version + 1)];
        }
      } else if Entitled(sub) {
        grants := grants + [NewGrant(sub, item, clock)];
      }
      assert grants == SyncStep(was, sub, item, clock);
      hide SyncStep, NoTies, Recomputed;
      Recompute(TripleOf(sub, item));
    }

    /** The inner loop: the rounds of one feature, behind those of the features before it. */
    method SyncFeature(sub: Subscription, f: nat, ghost start: Store) returns (count: nat)
      requires f < |sub.plan| && NoTies(SyncAll(start.grants, sub, AllItems(sub), start.clock))
      requires St() == RoundsOf(start, sub, Items(sub.plan, f))
      modifies this`grants, this`access, this`touched
      ensures St() == RoundsOf(start, sub, Items(sub.plan, f + 1))
      ensures |Items(sub.plan, f)| + count == |Items(sub.plan, f + 1)|
    {
      RoundsOfFeature(sub.plan, f);
      hide NoTies, Round, RoundsOf, Items, ItemsOf, Rounds, SyncAll, SyncStep;
      var definitions := sub.plan[f].definitions;
      count := 0;
      while count < |definitions|
        invariant 0 <= count <= |definitions|
        invariant St() == RoundsOf(start, sub, Rounds(sub.plan, f, count))
        invariant |Rounds(sub.plan, f, count)| == |Items(sub.plan, f)| + count
      {
        var item := Item(definitions[count], sub.plan[f].values);
        NextRound(sub.plan, f, count);
        RoundsAreFirst(sub.plan, f, count + 1);
        RoundIsNext(start, sub, Rounds(sub.plan, f, count), item, AllItems(sub));
        SyncRound(sub, item);
        count := count + 1;
      }
    }

    /** The outer loop. */
    method SyncFeatures(sub: Subscription) returns (count: nat)
      requires NoTies(SyncAll(grants, sub, AllItems(sub), clock))
      modifies this`grants, this`access, this`touched
      ensures St() == RoundsOf(old(St()), sub, AllItems(sub)) && count == |AllItems(sub)|
    {
      ghost var start := St();
      count := 0;
      var f := 0;
      assert Items(sub.plan, 0) == [];
      while f < |sub.plan|
        invariant 0 <= f <= |sub.plan|
        invariant St() == RoundsOf(start, sub, Items(sub.plan, f))
        invariant count == |Items(sub.plan, f)|
      {
        hide NoTies, Round, RoundsOf, Items, SyncAll, SyncStep;
        var more := SyncFeature(sub, f, start);
        count := count + more;
        f := f + 1;
      }
    }

    /**
     The sync of one subscription. Its grants become what the rounds of the nested loops make of them,
     and exactly the answers about the plan's definitions are computed afresh.
     */
    method SyncFromSubscription(found: Option<Subscription>, now: int) returns (synced: Option<nat>)
      requires Valid() && GoodOp(catalog, home, St(), Op.Sync(found, now))
      modifies this
      ensures Valid() && trace == old(trace) + [Op.Sync(found, now)] && clock == now
      ensures found.None? ==> synced.None? && grants == old(grants) && touched == old(touched)
      ensures found.Some? ==>
        synced == Some(|AllItems(found.value)|) && Synced(old(St()), St(), found.value, now)
    {
      ghost var op := Op.Sync(found, now);
      ghost var before := St();
      clock := now;
      if found.Some? {
        hide NoTies, RoundsOf, Items, SyncAll, Run, GoodRun;
        var count := SyncFeatures(found.value);
        synced := Some(count);
        SyncAnswers(catalog, home, trace, found.value, now);
      } else {
        synced := None;
      }
      Did(op, before);
    }
  }

  /** What a draft leaves open is set to the defaults: a manual grant that is limited, in force from now on. */
  predicate AsDrafted(organization: string, d: GrantDraft, g: Grant, now: int) {
    && g.triple == Triple(organization, d.application, d.definition)
    && (d.source.Some? ==> g.source == d.source.value) && (d.source.None? ==> g.source == MANUAL)
    && (d.isUnlimited.Some? ==> g.isUnlimited == d.isUnlimited.value) && (d.isUnlimited.None? ==> !g.isUnlimited)
    && g.status.ACTIVE? && g.values == d.values && g.validFrom == now && g.validUntil == d.validUntil
    && g.createdAt == now && g.subscription.None? && g.key.None? && g.version == 1
  }

  /**
   The grants are those the rounds make; the answers about the plan's definitions, and no others, are
   computed at this time, and are what resolving these grants gives.
   */
  ghost predicate Synced(st: Store, st': Store, sub: Subscription, now: int) {
    && st'.grants == SyncAll(st.grants, sub, AllItems(sub), now) && st'.clock == now
    && (forall t: Triple :: Lookup(st'.touched, t)
          == if Concerns(sub, AllItems(sub), t) then Some(now) else Lookup(st.touched, t))
    && (forall t: Triple :: Concerns(sub, AllItems(sub), t) ==> Resolves(st'.grants, t, now, Cached(st'.access, t)))
  }

  lemma NobodyWins(grants: seq<Grant>, t: Triple, now: int)
    requires forall i: nat :: !Candidate(grants, t, now, i)
    ensures Winner(grants, t, now).None?
  {
  }

  /** The rounds done before definition `k` of feature `f`. */
  function Rounds(plan: seq<PlanFeature>, f: nat, k: nat): seq<Item>
    requires f < |plan| && k <= |plan[f].definitions|
  {
    Items(plan, f) + ItemsOf(plan[f], k)
  }

  lemma RoundsOfFeature(plan: seq<PlanFeature>, f: nat)
    requires f < |plan|
    ensures Rounds(plan, f, 0) == Items(plan, f)
    ensures Rounds(plan, f, |plan[f].definitions|) == Items(plan, f + 1)
  {
  }

  lemma NextRound(plan: seq<PlanFeature>, f: nat, k: nat)
    requires f < |plan| && k < |plan[f].definitions|
    ensures Rounds(plan, f, k + 1)
         == Rounds(plan, f, k) + [Item(plan[f].definitions[k], plan[f].values)]
  {
  }

  lemma {:induction false} ItemsGrow(plan: seq<PlanFeature>, f: nat, n: nat)
    requires f <= n <= |plan|
    ensures Items(plan, f) <= Items(plan, n)
  {
    if f < n { ItemsGrow(plan, f, n - 1); }
  }

  lemma {:induction false} ItemsOfGrow(feature: PlanFeature, k: nat, n: nat)
    requires k <= n <= |feature.definitions|
    ensures ItemsOf(feature, k) <= ItemsOf(feature, n)
  {
    if k < n { ItemsOfGrow(feature, k, n - 1); }
  }

  lemma RoundsAreFirst(plan: seq<PlanFeature>, f: nat, k: nat)
    requires f < |plan| && k <= |plan[f].definitions|
    ensures Rounds(plan, f, k) <= Items(plan, |plan|)
  {
    ItemsOfGrow(plan[f], k, |plan[f].definitions|);
    ItemsGrow(plan, f + 1, |plan|);
    RoundsOfFeature(plan, f);
    hide Items, ItemsOf;
    assert Rounds(plan, f, k) <= Rounds(plan, f, |plan[f].definitions|);
  }

  /** Whatever would tie after some rounds would still tie after all of them. */
  lemma {:induction false} NoTiesBefore(grants: seq<Grant>, sub: Subscription, items: seq<Item>, all: seq<Item>,
                                        now: int)
    requires items <= all && NoTies(SyncAll(grants, sub, all, now))
    ensures NoTies(SyncAll(grants, sub, items, now))
  {
    hide NoTies, SyncStep;
    if items != all {
      var before := all[..|all| - 1];
      StepKeepsBirths(SyncAll(grants, sub, before, now), sub, all[|all| - 1], now);
      TiesWouldStay(SyncAll(grants, sub, before, now), SyncAll(grants, sub, all, now));
      NoTiesBefore(grants, sub, items, before, now);
    }
  }

  lemma {:induction false} RoundsSync(st: Store, sub: Subscription, items: seq<Item>)
    ensures var st' := RoundsOf(st, sub, items);
            st'.grants == SyncAll(st.grants, sub, items, st.clock) && st'.clock == st.clock
  {
    hide SyncStep, Winner;
    if items != [] { RoundsSync(st, sub, items[..|items| - 1]); }
  }

  lemma RoundIsNext(st: Store, sub: Subscription, done: seq<Item>, item: Item, all: seq<Item>)
    requires done + [item] <= all && NoTies(SyncAll(st.grants, sub, all, st.clock))
    ensures RoundsOf(st, sub, done + [item]) == Round(RoundsOf(st, sub, done), sub, item)
    ensures NoTies(SyncStep(RoundsOf(st, sub, done).grants, sub, item, st.clock))
    ensures RoundsOf(st, sub, done).clock == st.clock
  {
    hide NoTies, SyncStep, Round;
    assert (done + [item])[..|done|] == done;
    RoundsSync(st, sub, done);
    NoTiesBefore(st.grants, sub, done + [item], all, st.clock);
  }

  /** What a sync as a whole leaves of its plan's answers. */
  lemma SyncAnswers(catalog: Catalog, home: Home, ops: seq<Op>, sub: Subscription, now: int)
    requires GoodRun(catalog, home, ops) && GoodOp(catalog, home, Run(catalog, ops), Op.Sync(Some(sub), now))
    ensures var st := Run(catalog, ops); Synced(st, Next(catalog, st, Op.Sync(Some(sub), now)), sub, now)
  {
    var op := Op.Sync(Some(sub), now);
    var st := Run(catalog, ops);
    var st' := Next(catalog, st, op);
    RoundsSync(st.(clock := now), sub, AllItems(sub));
    hide RoundsOf, Run, GoodRun, GoodOp, Resolves, Concerns, Items;
    forall t: Triple
      ensures Lookup(st'.touched, t) == if Concerns(sub, AllItems(sub), t) then Some(now) else Lookup(st.touched, t)
      ensures Concerns(sub, AllItems(sub), t) ==> Resolves(st'.grants, t, now, Cached(st'.access, t))
    {
      RoundsTouch(st.(clock := now), sub, AllItems(sub), t);
      if Concerns(sub, AllItems(sub), t) {
        AnswersAtOnce(catalog, home, ops, op, t);
      }
    }
  }
}
