/** What one `syncFromSubscription` makes of the grants, apart from the cache. */
module EntitlementSync {
  import opened Common
  import opened Entitlements

  datatype SubscriptionStatus =
    | INCOMPLETE | TRIALING | ACTIVE | PAST_DUE | GRACE_PERIOD | PAUSED | CANCELED | EXPIRED | SUSPENDED

  /** A feature of the plan: its values and the entitlement definitions of the feature. */
  datatype PlanFeature = PlanFeature(values: Values, definitions: seq<string>)

  datatype Subscription = Subscription(id: string, organization: string, application: string,
                                       status: SubscriptionStatus, plan: seq<PlanFeature>)

  /** One round of the inner loop. */
  datatype Item = Item(definition: string, values: Values)

  predicate Entitled(sub: Subscription) {
    sub.status.ACTIVE? || sub.status.TRIALING? || sub.status.GRACE_PERIOD?
  }

  function KeyFor(subscription: string, definition: string): string {
    "sub:" + subscription + ":def:" + definition
  }

  /** For subscription ids of one length, such as UUIDs, the key tells both ids. */
  lemma KeysIdentify(s: string, d: string, s': string, d': string)
    requires |s| == |s'| && KeyFor(s, d) == KeyFor(s', d')
    ensures s == s' && d == d'
  {
    var key := KeyFor(s, d);
    assert s == key[4..4 + |s|] == s';
    assert d == key[|s| + 9..] == d';
  }

  function ItemsOf(f: PlanFeature, n: nat): seq<Item>
    requires n <= |f.definitions|
  {
    if n == 0 then [] else ItemsOf(f, n - 1) + [Item(f.definitions[n - 1], f.values)]
  }

  /** The rounds of the nested loops over the first `n` features. */
  function Items(plan: seq<PlanFeature>, n: nat): seq<Item>
    requires n <= |plan|
  {
    if n == 0 then [] else Items(plan, n - 1) + ItemsOf(plan[n - 1], |plan[n - 1].definitions|)
  }

  function FindKey(grants: seq<Grant>, key: string): (r: Option<nat>)
    ensures r.Some? ==> r.value < |grants| && grants[r.value].key == Some(key)
    ensures r.None? <==> forall i: nat :: i < |grants| ==> grants[i].key != Some(key)
  {
    if grants == [] then None
    else if grants[|grants| - 1].key == Some(key) then Some(|grants| - 1)
    else FindKey(grants[..|grants| - 1], key)
  }

  function NewGrant(sub: Subscription, item: Item, now: int): Grant {
    Grant(Triple(sub.organization, sub.application, item.definition), SUBSCRIPTION, Status.ACTIVE, item.values,
          false, now, None, now, Some(sub.id), Some(KeyFor(sub.id, item.definition)), 1)
  }

  /** The update of an existing grant by one round that finds it. */
  function Applied(g: Grant, sub: Subscription, item: Item): Grant {
    if g.key != Some(KeyFor(sub.id, item.definition)) then g
    else if Entitled(sub) then g.(status := Status.ACTIVE, values := item.values, version := g.version + 1)
    else if g.status.ACTIVE? then g.(status := REVOKED)
    else g
  }

  /** One round of the inner loop. */
  function SyncStep(grants: seq<Grant>, sub: Subscription, item: Item, now: int): seq<Grant> {
    var existing := FindKey(grants, KeyFor(sub.id, item.definition));
    if existing.Some? then grants[existing.value := Applied(grants[existing.value], sub, item)]
    else if Entitled(sub) then grants + [NewGrant(sub, item, now)]
    else grants
  }

  function SyncAll(grants: seq<Grant>, sub: Subscription, items: seq<Item>, now: int): seq<Grant> {
    if items == [] then grants
    else SyncStep(SyncAll(grants, sub, items[..|items| - 1], now), sub, items[|items| - 1], now)
  }

  ghost predicate KeysUnique(grants: seq<Grant>) {
    forall i: nat, j: nat :: i < j < |grants| && grants[i].key.Some? ==> grants[i].key != grants[j].key
  }

  lemma OneHolderPerKey(grants: seq<Grant>, i: nat, j: nat)
    requires KeysUnique(grants) && i < |grants| && j < |grants|
    requires grants[i].key.Some? && grants[i].key == grants[j].key
    ensures i == j
  {
  }

  /** All rounds applied to one grant. */
  function AppliedAll(g: Grant, sub: Subscription, items: seq<Item>): Grant {
    if items == [] then g
    else Applied(AppliedAll(g, sub, items[..|items| - 1]), sub, items[|items| - 1])
  }

  lemma StepApplies(grants: seq<Grant>, sub: Subscription, item: Item, now: int)
    requires KeysUnique(grants)
    ensures var grants' := SyncStep(grants, sub, item, now);
            && KeysUnique(grants') && |grants| <= |grants'| <= |grants| + 1
            && (forall i: nat :: i < |grants| ==> grants'[i] == Applied(grants[i], sub, item))
            && (|grants'| > |grants| ==>
                  Entitled(sub) && grants' == grants + [NewGrant(sub, item, now)]
                  && FindKey(grants, KeyFor(sub.id, item.definition)).None?)
            && (Entitled(sub) ==> FindKey(grants', KeyFor(sub.id, item.definition)).Some?)
  {
    var existing := FindKey(grants, KeyFor(sub.id, item.definition));
    var grants' := SyncStep(grants, sub, item, now);
    forall i: nat | i < |grants| ensures grants'[i] == Applied(grants[i], sub, item) {
      if existing.Some? && i != existing.value {
        assert grants[i].key != grants[existing.value].key by {
          assert if i < existing.value then i < existing.value < |grants| else existing.value < i < |grants|;
        }
      }
    }
    if Entitled(sub) && existing.Some? {
      assert grants'[existing.value].key == Some(KeyFor(sub.id, item.definition));
    }
    forall i: nat, j: nat | i < j < |grants'| && grants'[i].key.Some?
      ensures grants'[i].key != grants'[j].key
    {
      assert i < |grants| ==> grants'[i].key == grants[i].key;
      assert j < |grants| ==> grants'[j].key == grants[j].key;
    }
  }

  /** Every grant there was is changed by the rounds that find it and by no other. */
  lemma {:induction false} SyncApplies(grants: seq<Grant>, sub: Subscription, items: seq<Item>, now: int)
    requires KeysUnique(grants)
    ensures var grants' := SyncAll(grants, sub, items, now);
            && KeysUnique(grants') && |grants| <= |grants'|
            && (forall i: nat :: i < |grants| ==> grants'[i] == AppliedAll(grants[i], sub, items))
            && (!Entitled(sub) ==> |grants'| == |grants|)
  {
    if items != [] {
      var before := items[..|items| - 1];
      SyncApplies(grants, sub, before, now);
      StepApplies(SyncAll(grants, sub, before, now), sub, items[|items| - 1], now);
    }
  }

  predicate Covers(items: seq<Item>, sub: Subscription, key: Option<string>) {
    exists k :: 0 <= k < |items| && key == Some(KeyFor(sub.id, items[k].definition))
  }

  /** The values of the last round for `key`. */
  function LastValues(items: seq<Item>, sub: Subscription, key: Option<string>, other: Values): Values {
    if items == [] then other
    else if key == Some(KeyFor(sub.id, items[|items| - 1].definition)) then items[|items| - 1].values
    else LastValues(items[..|items| - 1], sub, key, other)
  }

  lemma CoversPrefix(items: seq<Item>, sub: Subscription, key: Option<string>)
    requires items != []
    ensures Covers(items, sub, key) <==>
            Covers(items[..|items| - 1], sub, key)
            || key == Some(KeyFor(sub.id, items[|items| - 1].definition))
  {
    var before := items[..|items| - 1];
    if k :| 0 <= k < |items| && key == Some(KeyFor(sub.id, items[k].definition)) {
      if k < |before| { assert before[k] == items[k]; }
    }
    if k :| 0 <= k < |before| && key == Some(KeyFor(sub.id, before[k].definition)) {
      assert items[k] == before[k];
    }
  }

  /** What the rounds leave of a grant: untouched without its key, else settled by the last round. */
  lemma {:induction false} AppliedAllIs(g: Grant, sub: Subscription, items: seq<Item>)
    ensures var g' := AppliedAll(g, sub, items);
            && g'.key == g.key
            && g'.(status := g.status, values := g.values, version := g.version) == g
            && (!Covers(items, sub, g.key) ==> g' == g)
            && (Covers(items, sub, g.key) && Entitled(sub) ==>
                  g'.status.ACTIVE? && g'.values == LastValues(items, sub, g.key, g.values))
            && (Covers(items, sub, g.key) && !Entitled(sub) ==>
                  g' == if g.status.ACTIVE? then g.(status := REVOKED) else g)
  {
    if items != [] {
      var before := items[..|items| - 1];
      AppliedAllIs(g, sub, before);
      CoversPrefix(items, sub, g.key);
      hide Covers;
      LastValuesIgnoresOther(before, sub, g.key, g.values, AppliedAll(g, sub, before).values);
    }
  }

  lemma {:induction false} LastValuesIgnoresOther(items: seq<Item>, sub: Subscription,
                                                  key: Option<string>, o: Values, o': Values)
    requires Covers(items, sub, key)  || o == o'
    ensures LastValues(items, sub, key, o) == LastValues(items, sub, key, o')
  {
    if items != [] {
      CoversPrefix(items, sub, key);
      if key != Some(KeyFor(sub.id, items[|items| - 1].definition)) {
        LastValuesIgnoresOther(items[..|items| - 1], sub, key, o, o');
      }
    }
  }

  // ---- what a sync achieves ----

  const NoValues := Values(None, None, None)

  /** The grant with `key` is active and holds the values the plan's last round for it gives. */
  ghost predicate Settled(grants: seq<Grant>, sub: Subscription, items: seq<Item>, key: string) {
    exists i: nat ::
      && i < |grants| && grants[i].key == Some(key) && grants[i].status.ACTIVE?
      && grants[i].values == LastValues(items, sub, Some(key), NoValues)
  }

  lemma StepSettles(grants: seq<Grant>, sub: Subscription, items: seq<Item>, now: int, key: string)
    requires KeysUnique(grants) && Entitled(sub) && items != []
    requires var last := items[|items| - 1];
             key == KeyFor(sub.id, last.definition)
             || Settled(grants, sub, items[..|items| - 1], key)
    ensures Settled(SyncStep(grants, sub, items[|items| - 1], now), sub, items, key)
  {
    var last := items[|items| - 1];
    var grants' := SyncStep(grants, sub, last, now);
    StepApplies(grants, sub, last, now);
    hide SyncStep;
    var i: nat;
    if key == KeyFor(sub.id, last.definition) {
      i := FindKey(grants', key).value;
      assert i < |grants| ==> grants'[i] == Applied(grants[i], sub, last);
    } else {
      i :| i < |grants| && grants[i].key == Some(key) && grants[i].status.ACTIVE?
           && grants[i].values == LastValues(items[..|items| - 1], sub, Some(key), NoValues);
      assert grants'[i] == Applied(grants[i], sub, last);
    }
    assert grants'[i].key == Some(key) && grants'[i].status.ACTIVE?;
  }

  /** While the subscription entitles, every definition of its plan ends up with an active grant. */
  lemma {:induction false} SyncSettles(grants: seq<Grant>, sub: Subscription, items: seq<Item>, now: int,
                                       key: string)
    requires KeysUnique(grants) && Entitled(sub) && Covers(items, sub, Some(key))
    ensures Settled(SyncAll(grants, sub, items, now), sub, items, key)
  {
    var before := items[..|items| - 1];
    SyncApplies(grants, sub, before, now);
    CoversPrefix(items, sub, Some(key));
    if Covers(before, sub, Some(key)) {
      SyncSettles(grants, sub, before, now, key);
    }
    hide Settled, SyncStep, Covers;
    StepSettles(SyncAll(grants, sub, before, now), sub, items, now, key);
  }

  /** What the rounds decide, in terms of the rounds. */
  lemma RoundsDecide(grants: seq<Grant>, sub: Subscription, items: seq<Item>, now: int,
                           definition: string)
    requires KeysUnique(grants) && Covers(items, sub, Some(KeyFor(sub.id, definition)))
    ensures var grants' := SyncAll(grants, sub, items, now);
            var key := Some(KeyFor(sub.id, definition));
            && |grants| <= |grants'|
            && (Entitled(sub) <==>
                exists i: nat :: i < |grants'| && grants'[i].key == key && grants'[i].status.ACTIVE?)
            && (forall i: nat, j: nat ::
                  (i < |grants'| && j < |grants'| && grants'[i].key == key == grants'[j].key)
                  ==> i == j)
            && (forall i: nat :: i < |grants| && !Covers(items, sub, grants[i].key) ==>
                  grants'[i] == grants[i])
  {
    var grants' := SyncAll(grants, sub, items, now);
    var key := KeyFor(sub.id, definition);
    SyncApplies(grants, sub, items, now);
    forall i: nat | i < |grants| && !Covers(items, sub, grants[i].key)
      ensures grants'[i] == grants[i]
    {
      AppliedAllIs(grants[i], sub, items);
    }
    forall i: nat, j: nat | i < |grants'| && j < |grants'|
      && grants'[i].key == Some(key) && grants'[j].key == Some(key)
      ensures i == j
    {
      OneHolderPerKey(grants', i, j);
    }
    if Entitled(sub) {
      SyncSettles(grants, sub, items, now, key);
    } else {
      forall i: nat | i < |grants'| && grants'[i].key == Some(key) ensures !grants'[i].status.ACTIVE? {
        AppliedAllIs(grants[i], sub, items);
      }
    }
  }

  predicate SameGrants(a: seq<Grant>, b: seq<Grant>) {
    |a| == |b| && forall i: nat :: i < |a| ==> a[i].(version := 0) == b[i].(version := 0)
  }

  lemma {:induction false} NothingToCreate(grants: seq<Grant>, sub: Subscription, items: seq<Item>,
                                           now: int)
    requires KeysUnique(grants)
    requires forall k :: 0 <= k < |items| ==> FindKey(grants, KeyFor(sub.id, items[k].definition)).Some?
    ensures |SyncAll(grants, sub, items, now)| == |grants|
  {
    if items != [] {
      var before := items[..|items| - 1];
      assert forall k :: 0 <= k < |before| ==> before[k] == items[k];
      NothingToCreate(grants, sub, before, now);
      SyncApplies(grants, sub, before, now);
      var i := FindKey(grants, KeyFor(sub.id, items[|items| - 1].definition)).value;
      AppliedAllIs(grants[i], sub, before);
      assert SyncAll(grants, sub, before, now)[i].key == grants[i].key;
    }
  }

  /** Syncing again, whenever that is, changes nothing but version counters. */
  lemma SyncIsIdempotent(grants: seq<Grant>, sub: Subscription, items: seq<Item>, now: int, later: int)
    requires KeysUnique(grants)
    ensures var once := SyncAll(grants, sub, items, now);
            SameGrants(SyncAll(once, sub, items, later), once)
  {
    var once := SyncAll(grants, sub, items, now);
    SyncApplies(grants, sub, items, now);
    SyncApplies(once, sub, items, later);
    var twice := SyncAll(once, sub, items, later);
    if Entitled(sub) {
      forall k | 0 <= k < |items| ensures FindKey(once, KeyFor(sub.id, items[k].definition)).Some? {
        SyncSettles(grants, sub, items, now, KeyFor(sub.id, items[k].definition));
      }
      NothingToCreate(once, sub, items, later);
    }
    forall i: nat | i < |once| ensures twice[i].(version := 0) == once[i].(version := 0) {
      GrantSyncedTwice(grants, sub, items, now, i);
    }
  }

  lemma GrantSyncedTwice(grants: seq<Grant>, sub: Subscription, items: seq<Item>, now: int, i: nat)
    requires KeysUnique(grants) && i < |SyncAll(grants, sub, items, now)|
    ensures var g := SyncAll(grants, sub, items, now)[i];
            AppliedAll(g, sub, items).(version := 0) == g.(version := 0)
  {
    var once := SyncAll(grants, sub, items, now);
    SyncApplies(grants, sub, items, now);
    AppliedAllIs(once[i], sub, items);
    if i < |grants| { AppliedAllIs(grants[i], sub, items); }
    if Covers(items, sub, once[i].key) {
      if Entitled(sub) {
        SyncSettles(grants, sub, items, now, once[i].key.value);
        SettledIs(once, sub, items, i);
      }
    }
  }

  lemma SettledIs(grants: seq<Grant>, sub: Subscription, items: seq<Item>, i: nat)
    requires KeysUnique(grants) && i < |grants| && grants[i].key.Some?
    requires Settled(grants, sub, items, grants[i].key.value) && Covers(items, sub, grants[i].key)
    ensures grants[i].status.ACTIVE?
    ensures grants[i].values == LastValues(items, sub, grants[i].key, grants[i].values)
  {
    var key := grants[i].key.value;
    var j: nat :| j < |grants| && grants[j].key == Some(key) && grants[j].status.ACTIVE?
                  && grants[j].values == LastValues(items, sub, Some(key), NoValues);
    OneHolderPerKey(grants, i, j);
    LastValuesIgnoresOther(items, sub, grants[i].key, NoValues, grants[i].values);
  }

  /** A grant whose definition the plan no longer has stays as it is, active or not. */
  lemma FormerPlanGrantsStay(grants: seq<Grant>, sub: Subscription, items: seq<Item>, now: int, i: nat,
                             definition: string)
    requires KeysUnique(grants) && i < |grants| && grants[i].key == Some(KeyFor(sub.id, definition))
    requires forall k :: 0 <= k < |items| ==> items[k].definition != definition
    ensures var grants' := SyncAll(grants, sub, items, now);
            i < |grants'| && grants'[i] == grants[i]
  {
    SyncApplies(grants, sub, items, now);
    AppliedAllIs(grants[i], sub, items);
    if k :| 0 <= k < |items| && grants[i].key == Some(KeyFor(sub.id, items[k].definition)) {
      KeysIdentify(sub.id, items[k].definition, sub.id, definition);
    }
  }

  // ---- in terms of the plan ----

  lemma {:induction false} PlanIsInItems(plan: seq<PlanFeature>, n: nat, f: nat, k: nat)
    requires f < n <= |plan| && k < |plan[f].definitions|
    ensures Item(plan[f].definitions[k], plan[f].values) in Items(plan, n)
  {
    if f < n - 1 {
      PlanIsInItems(plan, n - 1, f, k);
    } else {
      ItemsOfAre(plan[f], |plan[f].definitions|);
    }
  }

  lemma {:induction false} ItemsOfAre(feature: PlanFeature, n: nat)
    requires n <= |feature.definitions|
    ensures |ItemsOf(feature, n)| == n
    ensures forall k :: 0 <= k < n ==> ItemsOf(feature, n)[k] == Item(feature.definitions[k], feature.values)
  {
    if n > 0 { ItemsOfAre(feature, n - 1); }
  }

  /** The plan has the definition among the `k`-th one of its `f`-th feature. */
  predicate Lists(plan: seq<PlanFeature>, f: nat, k: nat, definition: string) {
    f < |plan| && k < |plan[f].definitions| && plan[f].definitions[k] == definition
  }

  lemma {:induction false} ItemsAreInPlan(plan: seq<PlanFeature>, n: nat, x: nat) returns (f: nat, k: nat)
    requires n <= |plan| && x < |Items(plan, n)|
    ensures Lists(plan, f, k, Items(plan, n)[x].definition) && Items(plan, n)[x].values == plan[f].values
  {
    if x < |Items(plan, n - 1)| {
      f, k := ItemsAreInPlan(plan, n - 1, x);
    } else {
      f, k := n - 1, x - |Items(plan, n - 1)|;
      ItemsOfAre(plan[f], |plan[f].definitions|);
    }
  }

  lemma {:induction false} LastValuesAgree(items: seq<Item>, sub: Subscription, key: Option<string>, other: Values,
                                           v: Values)
    requires Covers(items, sub, key)
    requires forall x :: 0 <= x < |items| && key == Some(KeyFor(sub.id, items[x].definition)) ==> items[x].values == v
    ensures LastValues(items, sub, key, other) == v
  {
    CoversPrefix(items, sub, key);
    if key != Some(KeyFor(sub.id, items[|items| - 1].definition)) {
      var before := items[..|items| - 1];
      assert forall x :: 0 <= x < |before| ==> before[x] == items[x];
      LastValuesAgree(before, sub, key, other, v);
    }
  }

  /** A grant that a sync at time `now` makes: the subscription's, unlimited neither in number nor in time. */
  predicate MadeBySync(g: Grant, sub: Subscription, now: int) {
    && g.triple.organization == sub.organization && g.triple.application == sub.application
    && g.source == SUBSCRIPTION && g.subscription == Some(sub.id)
    && g.key == Some(KeyFor(sub.id, g.triple.definition))
    && !g.isUnlimited && g.validFrom == now && g.validUntil.None? && g.createdAt == now
  }

  lemma {:induction false} NewGrantsAreMade(grants: seq<Grant>, sub: Subscription, items: seq<Item>, now: int, i: nat)
    requires KeysUnique(grants) && |grants| <= i < |SyncAll(grants, sub, items, now)|
    ensures MadeBySync(SyncAll(grants, sub, items, now)[i], sub, now)
  {
    var before := items[..|items| - 1];
    var was := SyncAll(grants, sub, before, now);
    SyncApplies(grants, sub, before, now);
    StepApplies(was, sub, items[|items| - 1], now);
    if i < |was| {
      NewGrantsAreMade(grants, sub, before, now, i);
    }
  }

  /** How many rounds are for `key`. */
  function RoundsFor(items: seq<Item>, sub: Subscription, key: Option<string>): nat {
    if items == [] then 0
    else RoundsFor(items[..|items| - 1], sub, key)
         + if key == Some(KeyFor(sub.id, items[|items| - 1].definition)) then 1 else 0
  }

  /** A grant's version counts the rounds that have written it, the one that made it among them. */
  lemma {:induction false} VersionsCountRounds(grants: seq<Grant>, sub: Subscription, items: seq<Item>, now: int, i: nat)
    requires KeysUnique(grants) && sub.status in {SubscriptionStatus.ACTIVE, TRIALING, GRACE_PERIOD}
    requires i < |SyncAll(grants, sub, items, now)|
    ensures var g := SyncAll(grants, sub, items, now)[i];
            g.version == (if i < |grants| then grants[i].version else 0) + RoundsFor(items, sub, g.key)
  {
    if items != [] {
      var (before, last) := (items[..|items| - 1], items[|items| - 1]);
      var was := SyncAll(grants, sub, before, now);
      SyncApplies(grants, sub, before, now);
      StepApplies(was, sub, last, now);
      if i < |was| {
        VersionsCountRounds(grants, sub, before, now, i);
      } else {
        NoRoundYet(grants, sub, before, now, KeyFor(sub.id, last.definition));
      }
    }
  }

  /** Without a grant of its key an entitling subscription has had no round for it. */
  lemma {:induction false} NoRoundYet(grants: seq<Grant>, sub: Subscription, items: seq<Item>, now: int, key: string)
    requires KeysUnique(grants) && Entitled(sub) && FindKey(SyncAll(grants, sub, items, now), key).None?
    ensures RoundsFor(items, sub, Some(key)) == 0
  {
    if items != [] {
      var before := items[..|items| - 1];
      var was := SyncAll(grants, sub, before, now);
      SyncApplies(grants, sub, before, now);
      StepApplies(was, sub, items[|items| - 1], now);
      assert forall i: nat :: i < |was| ==> SyncAll(grants, sub, items, now)[i].key == was[i].key;
      NoRoundYet(grants, sub, before, now, key);
    }
  }

  /** Wherever the plan lists the definition it gives it these values. */
  ghost predicate OneValue(plan: seq<PlanFeature>, definition: string, v: Values) {
    forall f: nat, k: nat :: Lists(plan, f, k, definition) ==> plan[f].values == v
  }

  /**
   After a sync the grant of each definition of the plan is active exactly when the subscription is ACTIVE,
   TRIALING or GRACE_PERIOD, and is otherwise revoked if it was active. There is at most one for each
   definition, it holds the plan's values, one that is new is the subscription's, and no grant of anything
   that the plan does not list is changed.
   */
  lemma SyncDecidesThePlan(grants: seq<Grant>, sub: Subscription, now: int, f: nat, k: nat)
    requires KeysUnique(grants) && f < |sub.plan| && k < |sub.plan[f].definitions|
    ensures var grants' := SyncAll(grants, sub, Items(sub.plan, |sub.plan|), now);
            var definition := sub.plan[f].definitions[k];
            var key := Some(KeyFor(sub.id, definition));
            var entitled := sub.status in {SubscriptionStatus.ACTIVE, TRIALING, GRACE_PERIOD};
            && |grants| <= |grants'|
            && (entitled <==> exists i: nat :: i < |grants'| && grants'[i].key == key && grants'[i].status.ACTIVE?)
            && (forall i: nat, j: nat ::
                  i < |grants'| && j < |grants'| && grants'[i].key == key == grants'[j].key ==> i == j)
            && (forall i: nat :: i < |grants| && grants[i].key == key && !entitled ==>
                  grants'[i] == if grants[i].status.ACTIVE? then grants[i].(status := REVOKED) else grants[i])
            && (forall i: nat :: i < |grants'| && grants'[i].key == key && entitled ==>
                  && grants'[i].status.ACTIVE?
                  && (OneValue(sub.plan, definition, sub.plan[f].values) ==> grants'[i].values == sub.plan[f].values))
            && (forall i: nat :: |grants| <= i < |grants'| ==> MadeBySync(grants'[i], sub, now))
    ensures forall i: nat :: i < |grants| && Unlisted(grants[i].key, sub) ==>
              i < |SyncAll(grants, sub, Items(sub.plan, |sub.plan|), now)|
              && SyncAll(grants, sub, Items(sub.plan, |sub.plan|), now)[i] == grants[i]
  {
    var (items, definition) := (Items(sub.plan, |sub.plan|), sub.plan[f].definitions[k]);
    var (grants', key) := (SyncAll(grants, sub, items, now), KeyFor(sub.id, definition));
    assert Entitled(sub) <==> sub.status in {SubscriptionStatus.ACTIVE, TRIALING, GRACE_PERIOD};
    PlanIsInItems(sub.plan, |sub.plan|, f, k);
    assert Covers(items, sub, Some(key));
    RoundsDecide(grants, sub, items, now, definition);
    SyncApplies(grants, sub, items, now);
    hide SyncAll, Items, Covers, Entitled, KeysUnique, Lists, OneValue, MadeBySync, Unlisted, KeyFor, AppliedAll;
    forall i: nat | |grants| <= i < |grants'| ensures MadeBySync(grants'[i], sub, now) {
      NewGrantsAreMade(grants, sub, items, now, i);
    }
    forall i: nat | i < |grants| && grants[i].key == Some(key) && !Entitled(sub)
      ensures grants'[i] == if grants[i].status.ACTIVE? then grants[i].(status := REVOKED) else grants[i]
    {
      AppliedAllIs(grants[i], sub, items);
    }
    forall i: nat | i < |grants'| && grants'[i].key == Some(key) && Entitled(sub)
      ensures grants'[i].status.ACTIVE?
              && (OneValue(sub.plan, definition, sub.plan[f].values) ==> grants'[i].values == sub.plan[f].values)
    {
      PlanValuesHold(grants, sub, items, now, f, k, i);
    }
    forall i: nat | i < |grants| && Unlisted(grants[i].key, sub) ensures grants'[i] == grants[i] {
      UnlistedIsUncovered(grants[i].key, sub);
    }
  }

  lemma PlanValuesHold(grants: seq<Grant>, sub: Subscription, items: seq<Item>, now: int, f: nat, k: nat, i: nat)
    requires KeysUnique(grants) && Entitled(sub) && items == Items(sub.plan, |sub.plan|)
    requires f < |sub.plan| && k < |sub.plan[f].definitions|
    requires Covers(items, sub, Some(KeyFor(sub.id, sub.plan[f].definitions[k])))
    requires i < |SyncAll(grants, sub, items, now)|
    requires SyncAll(grants, sub, items, now)[i].key == Some(KeyFor(sub.id, sub.plan[f].definitions[k]))
    ensures var g := SyncAll(grants, sub, items, now)[i];
            && g.status.ACTIVE?
            && (OneValue(sub.plan, sub.plan[f].definitions[k], sub.plan[f].values) ==> g.values == sub.plan[f].values)
  {
    var definition := sub.plan[f].definitions[k];
    var key := KeyFor(sub.id, definition);
    SyncApplies(grants, sub, items, now);
    SyncSettles(grants, sub, items, now, key);
    hide SyncAll, Items, KeyFor;
    SettledIs(SyncAll(grants, sub, items, now), sub, items, i);
    if OneValue(sub.plan, definition, sub.plan[f].values) {
      forall x | 0 <= x < |items| && Some(key) == Some(KeyFor(sub.id, items[x].definition))
        ensures items[x].values == sub.plan[f].values
      {
        KeysIdentify(sub.id, items[x].definition, sub.id, definition);
        var f', k' := ItemsAreInPlan(sub.plan, |sub.plan|, x);
      }
      LastValuesAgree(items, sub, Some(key), SyncAll(grants, sub, items, now)[i].values, sub.plan[f].values);
    }
  }

  /** The key is of no definition that the plan lists. */
  ghost predicate Unlisted(key: Option<string>, sub: Subscription) {
    forall f: nat, k: nat, definition ::
      Lists(sub.plan, f, k, definition) ==> key != Some(KeyFor(sub.id, definition))
  }

  lemma UnlistedIsUncovered(key: Option<string>, sub: Subscription)
    requires Unlisted(key, sub)
    ensures !Covers(Items(sub.plan, |sub.plan|), sub, key)
  {
    hide KeyFor, Items;
    var items := Items(sub.plan, |sub.plan|);
    forall x | 0 <= x < |items| ensures key != Some(KeyFor(sub.id, items[x].definition)) {
      var f, k := ItemsAreInPlan(sub.plan, |sub.plan|, x);
    }
  }
}
