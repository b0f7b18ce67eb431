/** Entitlement grants, the rule that picks the one that counts, and the cached answer. */
module Entitlements {
  import opened Common

  datatype Source = SUBSCRIPTION | TRIAL | MANUAL | PROMOTIONAL

  datatype Status = ACTIVE | REVOKED | EXPIRED

  /** What an answer is about: an entitlement definition, for an organization in an application. */
  datatype Triple = Triple(organization: string, application: string, definition: string)

  datatype Values = Values(boolValue: Option<bool>, numberValue: Option<int>, textValue: Option<string>)

  datatype Grant = Grant(triple: Triple, source: Source, status: Status, values: Values,
                         isUnlimited: bool, validFrom: int, validUntil: Option<int>, createdAt: int,
                         subscription: Option<string>, key: Option<string>, version: nat)

  /** A `FeatureAccess` row. */
  datatype Access = Access(hasAccess: bool, numberValue: Option<int>, textValue: Option<string>,
                           isUnlimited: bool, sourceGrant: nat)

  datatype CheckResult = CheckResult(allowed: bool, numberValue: Option<int>, textValue: Option<string>,
                                     isUnlimited: bool)

  const Denied := CheckResult(false, None, None, false)

  function Priority(s: Source): nat {
    match s
    case MANUAL => 3
    case PROMOTIONAL => 2
    case TRIAL => 1
    case SUBSCRIPTION => 0
  }

  /** Grant `g` counts towards `t` at time `now`. */
  predicate Counts(g: Grant, t: Triple, now: int) {
    && g.triple == t && g.status == ACTIVE && g.validFrom <= now
    && (g.validUntil.None? || g.validUntil.value > now)
  }

  predicate Candidate(grants: seq<Grant>, t: Triple, now: int, i: nat) {
    i < |grants| && Counts(grants[i], t, now)
  }

  /** Grant `a` takes precedence over grant `b`: a higher source, or the same source and newer. */
  predicate Beats(a: Grant, b: Grant) {
    || Priority(a.source) > Priority(b.source)
    || (Priority(a.source) == Priority(b.source) && a.createdAt > b.createdAt)
  }

  /** Grant `i` is the one that counts: it beats every other candidate. */
  ghost predicate IsWinner(grants: seq<Grant>, t: Triple, now: int, i: nat) {
    && Candidate(grants, t, now, i)
    && forall j: nat :: Candidate(grants, t, now, j) && j != i ==> Beats(grants[i], grants[j])
  }

  /** No two grants of a triple and source were created at the same time. */
  ghost predicate NoTies(grants: seq<Grant>) {
    forall i: nat, j: nat ::
      (i < j < |grants|
       && grants[i].triple == grants[j].triple && grants[i].source == grants[j].source)
      ==> grants[i].createdAt != grants[j].createdAt
  }

  function AccessOf(grants: seq<Grant>, i: nat): Access
    requires i < |grants|
  {
    var g := grants[i];
    Access(g.isUnlimited || g.values.boolValue == Some(true) || g.values.numberValue.Some?,
           g.values.numberValue, g.values.textValue, g.isUnlimited, i)
  }

  function Answer(a: Access): CheckResult {
    CheckResult(a.hasAccess, a.numberValue, a.textValue, a.isUnlimited)
  }

  /** The reference answer: resolve the grants afresh at time `now`. */
  ghost predicate Resolves(grants: seq<Grant>, t: Triple, now: int, r: CheckResult) {
    || (exists i: nat :: IsWinner(grants, t, now, i) && r == Answer(AccessOf(grants, i)))
    || ((forall i: nat :: !Candidate(grants, t, now, i)) && r == Denied)
  }

  lemma ResolutionIsUnique(grants: seq<Grant>, t: Triple, now: int, r: CheckResult, r': CheckResult)
    requires Resolves(grants, t, now, r) && Resolves(grants, t, now, r')
    ensures r == r'
  {
  }

  /** The higher source decides, and within a source the newest grant. */
  lemma HighestSourceDecides(grants: seq<Grant>, t: Triple, now: int, i: nat, j: nat)
    requires IsWinner(grants, t, now, i) && Candidate(grants, t, now, j)
    ensures grants[j].source.MANUAL? ==> grants[i].source.MANUAL?
    ensures grants[j].source.PROMOTIONAL? ==> grants[i].source.MANUAL? || grants[i].source.PROMOTIONAL?
    ensures grants[j].source.TRIAL? ==> !grants[i].source.SUBSCRIPTION?
    ensures grants[j].source == grants[i].source ==> grants[j].createdAt <= grants[i].createdAt
  {
  }

  /** Access is granted only by a live grant that is unlimited, switched on or carries a number. */
  lemma AllowedNeedsAGrant(grants: seq<Grant>, t: Triple, now: int, r: CheckResult)
    requires Resolves(grants, t, now, r)
    ensures r.allowed ==> exists i: nat ::
              && Candidate(grants, t, now, i)
              && (grants[i].isUnlimited || grants[i].values.boolValue == Some(true) || grants[i].values.numberValue.Some?)
    ensures (forall i: nat :: !Candidate(grants, t, now, i)) ==> !r.allowed
  {
    if i: nat :| IsWinner(grants, t, now, i) && r == Answer(AccessOf(grants, i)) {
      assert Candidate(grants, t, now, i);
    }
  }

  /** Grant `g` is about `t`, in force at `now`. */
  predicate InForce(g: Grant, t: Triple, now: int) {
    && g.triple.organization == t.organization && g.triple.application == t.application
    && g.triple.definition == t.definition
    && g.status != REVOKED && g.status != EXPIRED
    && g.validFrom <= now && (g.validUntil.Some? ==> now < g.validUntil.value)
  }

  /** Grant `g` comes before `h`: MANUAL, PROMOTIONAL, TRIAL, SUBSCRIPTION, and within one of these the newer. */
  predicate ComesBefore(g: Grant, h: Grant) {
    match g.source
    case MANUAL => h.source != MANUAL || g.createdAt > h.createdAt
    case PROMOTIONAL => h.source in {TRIAL, SUBSCRIPTION} || (h.source == PROMOTIONAL && g.createdAt > h.createdAt)
    case TRIAL => h.source == SUBSCRIPTION || (h.source == TRIAL && g.createdAt > h.createdAt)
    case SUBSCRIPTION => h.source == SUBSCRIPTION && g.createdAt > h.createdAt
  }

  /** The answer that grant `g` gives. */
  predicate Gives(g: Grant, r: CheckResult) {
    && (r.allowed <==> g.isUnlimited || g.values.boolValue == Some(true) || g.values.numberValue.Some?)
    && r.numberValue == g.values.numberValue && r.textValue == g.values.textValue && r.isUnlimited == g.isUnlimited
  }

  /** The grant in force that comes before all the others in force decides; without one the answer is no. */
  lemma FirstInForceDecides(grants: seq<Grant>, t: Triple, now: int, r: CheckResult, i: nat)
    requires i < |grants| && InForce(grants[i], t, now)
    requires forall j: nat :: j < |grants| && j != i && InForce(grants[j], t, now) ==> ComesBefore(grants[i], grants[j])
    ensures Resolves(grants, t, now, r) <==> Gives(grants[i], r)
  {
    assert Candidate(grants, t, now, i);
    forall j: nat | Candidate(grants, t, now, j) && j != i ensures Beats(grants[i], grants[j]) {}
    assert IsWinner(grants, t, now, i);
  }

  lemma NoneInForceDenies(grants: seq<Grant>, t: Triple, now: int, r: CheckResult)
    requires forall j: nat :: j < |grants| ==> !InForce(grants[j], t, now)
    ensures Resolves(grants, t, now, r) <==> r == CheckResult(false, None, None, false)
  {
    forall j: nat ensures !Candidate(grants, t, now, j) {}
  }

  // ---- picking the winner ----

  /** `order` lists the candidates, each once, in whatever order the database returns them. */
  ghost predicate Enumerates(order: seq<nat>, grants: seq<Grant>, t: Triple, now: int) {
    forall i: nat :: i in order <==> Candidate(grants, t, now, i)
  }

  /** One step of the reduce: the better of the best so far and the current grant. */
  function Better(grants: seq<Grant>, best: nat, current: nat): nat
    requires best < |grants| && current < |grants|
  {
    var p, q := Priority(grants[best].source), Priority(grants[current].source);
    if q > p then current
    else if q < p then best
    else if grants[current].createdAt > grants[best].createdAt then current else best
  }

  /** `best` takes precedence over each other grant among the first `k` of `order`. */
  ghost predicate BestOf(grants: seq<Grant>, order: seq<nat>, k: nat, best: nat)
    requires k <= |order|
  {
    && best in order && best < |grants|
    && forall x :: 0 <= x < k && order[x] != best ==>
         order[x] < |grants| && Beats(grants[best], grants[order[x]])
  }

  /** The reduce over the candidates, which finds the winner whatever their order. */
  method PickWinner(grants: seq<Grant>, t: Triple, now: int, order: seq<nat>) returns (w: Option<nat>)
    requires Enumerates(order, grants, t, now) && NoTies(grants)
    ensures w.None? <==> forall i: nat :: !Candidate(grants, t, now, i)
    ensures w.Some? ==> IsWinner(grants, t, now, w.value)
  {
    if order == [] {
      assert forall i: nat :: i !in order;
      return None;
    }
    assert order[0] in order;
    var best := order[0];
    var k := 1;
    while k < |order|
      invariant 1 <= k <= |order|
      invariant BestOf(grants, order, k, best)
    {
      assert order[k] in order;
      best := PickBetter(grants, t, now, order, k, best);
      k := k + 1;
    }
    forall j: nat | Candidate(grants, t, now, j) && j != best ensures Beats(grants[best], grants[j]) {
      assert j in order;
    }
    w := Some(best);
  }

  /** The better of two candidates beats everything the old best did, and the other one. */
  method PickBetter(grants: seq<Grant>, t: Triple, now: int, order: seq<nat>, k: nat, best: nat)
    returns (better: nat)
    requires Enumerates(order, grants, t, now) && NoTies(grants)
    requires k < |order| && BestOf(grants, order, k, best)
    ensures BestOf(grants, order, k + 1, better)
  {
    var current := order[k];
    assert Candidate(grants, t, now, current) && Candidate(grants, t, now, best);
    better := Better(grants, best, current);
    if best != current {
      TwoDiffer(grants, t, now, best, current);
    }
  }

  lemma TwoDiffer(grants: seq<Grant>, t: Triple, now: int, i: nat, j: nat)
    requires NoTies(grants) && i != j && Candidate(grants, t, now, i) && Candidate(grants, t, now, j)
    ensures Beats(grants[i], grants[j]) || Beats(grants[j], grants[i])
  {
    assert if i < j then i < j < |grants| else j < i < |grants|;
  }

  // ---- time ----

  /** Between times `a` and `b` no active grant of `t` begins or ends. */
  ghost predicate Uncrossed(grants: seq<Grant>, t: Triple, a: int, b: int) {
    forall i: nat :: i < |grants| && grants[i].triple == t && grants[i].status == ACTIVE ==>
      && !(a < grants[i].validFrom <= b)
      && (grants[i].validUntil.Some? ==> !(a < grants[i].validUntil.value <= b))
  }

  lemma UncrossedKeepsAnswer(grants: seq<Grant>, t: Triple, a: int, b: int, r: CheckResult)
    requires a <= b && Uncrossed(grants, t, a, b) && Resolves(grants, t, a, r)
    ensures Resolves(grants, t, b, r)
  {
    forall i: nat ensures Candidate(grants, t, a, i) == Candidate(grants, t, b, i) {
      if i < |grants| && grants[i].triple == t && grants[i].status == ACTIVE {
        assert !(a < grants[i].validFrom <= b);
      }
    }
    if i: nat :| IsWinner(grants, t, a, i) && r == Answer(AccessOf(grants, i)) {
      assert IsWinner(grants, t, b, i);
    }
  }

  // ---- the cache ----

  /** The cache row of `t` is what resolving at time `at` gives. */
  ghost predicate RowAgrees(grants: seq<Grant>, access: map<Triple, Access>, t: Triple, at: int) {
    if t in access then exists i: nat :: IsWinner(grants, t, at, i) && access[t] == AccessOf(grants, i)
    else forall i: nat :: !Candidate(grants, t, at, i)
  }

  lemma AgreementResolves(grants: seq<Grant>, access: map<Triple, Access>, t: Triple, at: int)
    requires RowAgrees(grants, access, t, at)
    ensures Resolves(grants, t, at, if t in access then Answer(access[t]) else Denied)
  {
  }

  /** Only grants of other triples change: the row still agrees. */
  lemma OthersKeepAgreement(grants: seq<Grant>, grants': seq<Grant>, access: map<Triple, Access>,
                            access': map<Triple, Access>, t: Triple, at: int)
    requires RowAgrees(grants, access, t, at) && |grants| <= |grants'|
    requires forall i: nat :: i < |grants'| ==>
               if i < |grants| && grants[i].triple == t then grants'[i] == grants[i]
               else grants'[i].triple != t
    requires (t in access) == (t in access') && (t in access ==> access[t] == access'[t])
    ensures RowAgrees(grants', access', t, at)
  {
    forall i: nat ensures Candidate(grants, t, at, i) == Candidate(grants', t, at, i) {
      assert i < |grants'| ==> if i < |grants| && grants[i].triple == t then grants'[i] == grants[i]
                               else grants'[i].triple != t;
    }
    if t in access {
      var i: nat :| IsWinner(grants, t, at, i) && access[t] == AccessOf(grants, i);
      assert Candidate(grants', t, at, i);
      assert IsWinner(grants', t, at, i);
    }
  }

  /** A grant of `t` that began after time `at` and holds at time `now`. */
  predicate BeganSince(g: Grant, t: Triple, at: int, now: int) {
    Counts(g, t, now) && at < g.validFrom
  }

  predicate RunOut(g: Grant, now: int) {
    g.validUntil.Some? && g.validUntil.value <= now
  }

  /**
   What keeps a row of time `at` right at time `now`: its grant has not run out and no stronger one has
   begun since; or, when there is no row, none has begun.
   */
  ghost predicate StillRight(grants: seq<Grant>, access: map<Triple, Access>, t: Triple, at: int, now: int) {
    if t in access then
      && access[t].sourceGrant < |grants|
      && !RunOut(grants[access[t].sourceGrant], now)
      && forall i: nat :: i < |grants| && BeganSince(grants[i], t, at, now) ==>
           !Beats(grants[i], grants[access[t].sourceGrant])
    else forall i: nat :: i < |grants| ==> !BeganSince(grants[i], t, at, now)
  }

  /**
   The cache does not follow the clock. As time passes a row remains what a fresh resolution gives exactly
   as long as its grant has not run out and none that precedes it has begun.
   */
  lemma RowStaysRight(grants: seq<Grant>, access: map<Triple, Access>, t: Triple, at: int, now: int)
    requires NoTies(grants) && RowAgrees(grants, access, t, at) && at <= now
    ensures RowAgrees(grants, access, t, now) <==> StillRight(grants, access, t, at, now)
  {
    if t in access {
      var w := access[t].sourceGrant;
      assert IsWinner(grants, t, at, w);
      if StillRight(grants, access, t, at, now) {
        forall j: nat | Candidate(grants, t, now, j) && j != w ensures Beats(grants[w], grants[j]) {
          if grants[j].validFrom <= at {
            assert Candidate(grants, t, at, j);
          } else {
            TwoDiffer(grants, t, now, w, j);
          }
        }
        assert IsWinner(grants, t, now, w);
      }
    } else {
      forall i: nat | i < |grants| ensures Candidate(grants, t, now, i) == BeganSince(grants[i], t, at, now) {
        assert !Candidate(grants, t, at, i);
      }
    }
  }

  /** A grant that has run out is one such case: the row it was computed from is wrong from then on. */
  lemma ExpiredWinnerStaysCached(grants: seq<Grant>, access: map<Triple, Access>, t: Triple, at: int,
                                 now: int)
    requires RowAgrees(grants, access, t, at) && t in access
    requires access[t].sourceGrant < |grants|
    requires var g := grants[access[t].sourceGrant];
             g.validUntil.Some? && at < g.validUntil.value <= now
    ensures !RowAgrees(grants, access, t, now)
  {
    forall i: nat | i < |grants| && access[t] == AccessOf(grants, i)
      ensures !IsWinner(grants, t, now, i)
    {
      assert !Counts(grants[i], t, now);
    }
  }
}
