/**
 License-key activation: any number of callers run a lock-free compare-and-swap loop on one key row
 while the key is revoked or transferred. Each read and each write of the row is one step.
 */
module LicenseKeys {
  import opened Common

  const MAX_ATTEMPTS := 5

  datatype LicenseStatus = ACTIVE | SUSPENDED | REVOKED | EXPIRED

  datatype Key = Key(license: string, organization: string, activationLimit: nat,
                     activationCount: nat, status: LicenseStatus, expiresAt: Option<int>)

  datatype Reason = NotFound | Revoked | Expired | LimitReached

  /** `views` lists, for each read so far, how many activations had landed by then; `began`, at the start. */
  datatype Call = Call(organization: string, began: nat, views: seq<nat>, phase: Phase)

  datatype Phase =
    | Reading
    | Swapping(seen: nat)
    | Landed
    | Rejected(reason: Reason)
    | GaveUp

  /** `order` logs the callers whose increment landed; `revokedAt`, the length of `order` at revocation. */
  datatype State = State(key: Key, calls: map<nat, Call>, order: seq<nat>, revokedAt: Option<nat>)

  datatype Event =
    | Start(pid: nat, organization: string)
    | Read(pid: nat, now: int)
    | Swap(pid: nat)
    | Revoke
    | Transfer(license: string)

  /** Why a caller that reads `k` at time `now` must not activate it. */
  function Refusal(k: Key, organization: string, now: int): Option<Reason> {
    if k.organization != organization then Some(NotFound)
    else if k.status.REVOKED? then Some(Revoked)
    else if k.expiresAt.Some? && k.expiresAt.value < now then Some(Expired)
    else if k.activationCount >= k.activationLimit then Some(LimitReached)
    else None
  }

  function AfterRead(st: State, c: Call, now: int): Call {
    var views := c.views + [|st.order|];
    match Refusal(st.key, c.organization, now)
    case Some(reason) => c.(views := views, phase := Rejected(reason))
    case None => c.(views := views, phase := Swapping(st.key.activationCount))
  }

  /** A step that is not possible in `st` changes nothing. */
  function Next(st: State, e: Event): State {
    match e
    case Start(pid, organization) =>
      if pid in st.calls then st
      else st.(calls := st.calls[pid := Call(organization, |st.order|, [], Reading)])
    case Read(pid, now) =>
      if pid in st.calls && st.calls[pid].phase.Reading?
      then st.(calls := st.calls[pid := AfterRead(st, st.calls[pid], now)])
      else st
    case Swap(pid) =>
      if pid in st.calls && st.calls[pid].phase.Swapping? then
        var c := st.calls[pid];
        if st.key.activationCount == c.phase.seen then
          st.(key := st.key.(activationCount := st.key.activationCount + 1),
              calls := st.calls[pid := c.(phase := Landed)], order := st.order + [pid])
        else if |c.views| < MAX_ATTEMPTS then st.(calls := st.calls[pid := c.(phase := Reading)])
        else st.(calls := st.calls[pid := c.(phase := GaveUp)])
      else st
    case Revoke =>
      if st.key.status.REVOKED? then st
      else st.(key := st.key.(status := REVOKED), revokedAt := Some(|st.order|))
    case Transfer(license) => st.(key := st.key.(license := license))
  }

  function Run(st: State, es: seq<Event>): State {
    if es == [] then st else Next(Run(st, es[..|es| - 1]), es[|es| - 1])
  }

  /** A key as it is before the calls of a run, none of which has begun. */
  predicate Fresh(k: Key) {
    k.activationCount <= k.activationLimit && !k.status.REVOKED?
  }

  function Begin(k: Key): State {
    State(k, map[], [], None)
  }

  // ---- what every step keeps ----

  /**
   A call's reads come one after the other, and a landed activation lies between any two of them;
   `landed` counts the activations landed so far.
   */
  ghost predicate CallOk(c: Call, landed: nat, revokedAt: Option<nat>, k0: Key) {
    && |c.views| <= MAX_ATTEMPTS
    && c.began <= landed
    && (forall i :: 0 <= i < |c.views| ==> c.began <= c.views[i] <= landed)
    && (forall i, j :: 0 <= i < j < |c.views| ==> c.views[i] < c.views[j])
    && PhaseOk(c, landed, revokedAt, k0)
  }

  ghost predicate PhaseOk(c: Call, landed: nat, revokedAt: Option<nat>, k0: Key) {
    match c.phase
    case Reading =>
      |c.views| < MAX_ATTEMPTS && (c.views != [] ==> c.views[|c.views| - 1] < landed)
    case Swapping(seen) =>
      && c.views != []
      && seen == k0.activationCount + c.views[|c.views| - 1]
      && seen < k0.activationLimit
      && (revokedAt.Some? ==> c.views[|c.views| - 1] <= revokedAt.value)
    case GaveUp => |c.views| == MAX_ATTEMPTS && c.views[MAX_ATTEMPTS - 1] < landed
    case _ => true
  }

  ghost predicate CallsOk(st: State, k0: Key) {
    forall p :: p in st.calls ==> CallOk(st.calls[p], |st.order|, st.revokedAt, k0)
  }

  ghost predicate KeyOk(st: State, k0: Key) {
    && st.key.activationLimit == k0.activationLimit && st.key.organization == k0.organization
    && st.key.expiresAt == k0.expiresAt
    && st.key.activationCount == k0.activationCount + |st.order|
    && st.key.activationCount <= st.key.activationLimit
    && (st.revokedAt.Some? <==> st.key.status.REVOKED?)
    && (st.revokedAt.Some? ==> st.revokedAt.value <= |st.order| <= st.revokedAt.value + 1)
  }

  ghost predicate OrderOk(st: State) {
    && (forall p :: p in st.order <==> p in st.calls && st.calls[p].phase.Landed?)
    && (forall i, j :: 0 <= i < j < |st.order| ==> st.order[i] != st.order[j])
  }

  ghost predicate Inv(st: State, k0: Key) {
    KeyOk(st, k0) && CallsOk(st, k0) && OrderOk(st)
  }

  lemma CallOkLater(c: Call, landed: nat, revokedAt: Option<nat>, k0: Key, landed': nat,
                    revokedAt': Option<nat>)
    requires CallOk(c, landed, revokedAt, k0) && landed <= landed'
    requires revokedAt' == revokedAt || revokedAt' == Some(landed)
    ensures CallOk(c, landed', revokedAt', k0)
  {
  }

  /** Only call `pid` changes, to `c`, and the log only grows. */
  lemma CallsStillOk(st: State, st': State, k0: Key, pid: nat, c: Call)
    requires CallsOk(st, k0) && |st.order| <= |st'.order| && st'.calls == st.calls[pid := c]
    requires st'.revokedAt == st.revokedAt && CallOk(c, |st'.order|, st'.revokedAt, k0)
    ensures CallsOk(st', k0)
  {
    forall p | p in st'.calls ensures CallOk(st'.calls[p], |st'.order|, st'.revokedAt, k0) {
      if p != pid {
        CallOkLater(st.calls[p], |st.order|, st.revokedAt, k0, |st'.order|, st.revokedAt);
      }
    }
  }

  lemma AfterReadOk(st: State, k0: Key, c: Call, now: int)
    requires KeyOk(st, k0) && c.phase.Reading? && CallOk(c, |st.order|, st.revokedAt, k0)
    ensures CallOk(AfterRead(st, c, now), |st.order|, st.revokedAt, k0)
  {
  }

  lemma ReadKeepsInv(st: State, k0: Key, pid: nat, now: int)
    requires Inv(st, k0) && pid in st.calls && st.calls[pid].phase.Reading?
    ensures Inv(Next(st, Read(pid, now)), k0)
  {
    AfterReadOk(st, k0, st.calls[pid], now);
    var st' := Next(st, Read(pid, now));
    CallsStillOk(st, st', k0, pid, AfterRead(st, st.calls[pid], now));
    assert !st'.calls[pid].phase.Landed?;
  }

  /** The swap finds the count it has read, so its increment lands. */
  lemma LandingKeepsInv(st: State, k0: Key, pid: nat)
    requires Inv(st, k0) && pid in st.calls && st.calls[pid].phase == Swapping(st.key.activationCount)
    ensures Inv(Next(st, Swap(pid)), k0)
  {
    var st' := Next(st, Swap(pid));
    var c := st.calls[pid];
    assert st'.order == st.order + [pid] && pid !in st.order;
    assert PhaseOk(c, |st.order|, st.revokedAt, k0);
    var c' := c.(phase := Landed);
    CallOkLater(c, |st.order|, st.revokedAt, k0, |st'.order|, st.revokedAt);
    assert CallOk(c', |st'.order|, st.revokedAt, k0);
    CallsStillOk(st, st', k0, pid, c');
    assert OrderOk(st');
  }

  lemma AfterLosingOk(st: State, k0: Key, c: Call, ph: Phase)
    requires KeyOk(st, k0) && CallOk(c, |st.order|, st.revokedAt, k0) && c.phase.Swapping?
    requires st.key.activationCount != c.phase.seen
    requires ph == if |c.views| < MAX_ATTEMPTS then Reading else GaveUp
    ensures CallOk(c.(phase := ph), |st.order|, st.revokedAt, k0)
  {
    assert c.views[|c.views| - 1] < |st.order|;
  }

  /** The swap finds another count: some activation has landed since this call's read. */
  lemma LosingKeepsInv(st: State, k0: Key, pid: nat)
    requires Inv(st, k0) && pid in st.calls && st.calls[pid].phase.Swapping?
    requires st.key.activationCount != st.calls[pid].phase.seen
    ensures Inv(Next(st, Swap(pid)), k0)
  {
    hide CallOk, PhaseOk, Refusal, AfterRead;
    var st' := Next(st, Swap(pid));
    var c := st.calls[pid];
    AfterLosingOk(st, k0, c, st'.calls[pid].phase);
    CallsStillOk(st, st', k0, pid, st'.calls[pid]);
    assert !st'.calls[pid].phase.Landed?;
  }

  lemma StartKeepsInv(st: State, k0: Key, pid: nat, organization: string)
    requires Inv(st, k0) && pid !in st.calls
    ensures Inv(Next(st, Start(pid, organization)), k0)
  {
    var st' := Next(st, Start(pid, organization));
    CallsStillOk(st, st', k0, pid, Call(organization, |st.order|, [], Reading));
    assert pid !in st.order;
    assert OrderOk(st');
  }

  lemma RevokeKeepsInv(st: State, k0: Key)
    requires Inv(st, k0)
    ensures Inv(Next(st, Revoke), k0)
  {
    var st' := Next(st, Revoke);
    forall p | p in st'.calls ensures CallOk(st'.calls[p], |st'.order|, st'.revokedAt, k0) {
      CallOkLater(st.calls[p], |st.order|, st.revokedAt, k0, |st.order|, st'.revokedAt);
    }
  }

  lemma NextKeepsInv(st: State, e: Event, k0: Key)
    requires Inv(st, k0)
    ensures Inv(Next(st, e), k0)
  {
    match e
    case Start(pid, organization) =>
      if pid !in st.calls { StartKeepsInv(st, k0, pid, organization); }
    case Read(pid, now) =>
      if pid in st.calls && st.calls[pid].phase.Reading? { ReadKeepsInv(st, k0, pid, now); }
    case Swap(pid) =>
      if pid in st.calls && st.calls[pid].phase.Swapping? {
        if st.key.activationCount == st.calls[pid].phase.seen { LandingKeepsInv(st, k0, pid); }
        else { LosingKeepsInv(st, k0, pid); }
      }
    case Revoke => RevokeKeepsInv(st, k0);
    case Transfer(_) =>
  }

  lemma {:induction false} RunKeepsInv(k0: Key, es: seq<Event>)
    requires Fresh(k0)
    ensures Inv(Run(Begin(k0), es), k0)
  {
    if es != [] {
      RunKeepsInv(k0, es[..|es| - 1]);
      NextKeepsInv(Run(Begin(k0), es[..|es| - 1]), es[|es| - 1], k0);
    }
  }

  // ---- what holds after every run ----

  /** The key counts exactly the calls that landed, each once, and never exceeds its limit. */
  lemma ActivationSafety(k0: Key, es: seq<Event>)
    requires Fresh(k0)
    ensures var st := Run(Begin(k0), es);
            && st.key.activationCount
               == k0.activationCount + |set p | p in st.calls && st.calls[p].phase.Landed?|
            && st.key.activationCount <= st.key.activationLimit == k0.activationLimit
  {
    RunKeepsInv(k0, es);
    var st := Run(Begin(k0), es);
    var landed := set p | p in st.calls && st.calls[p].phase.Landed?;
    assert landed == Elements(st.order);
    DistinctSize(st.order);
  }

  function Elements(s: seq<nat>): set<nat> {
    set p | p in s
  }

  lemma {:induction false} DistinctSize(s: seq<nat>)
    requires forall i, j :: 0 <= i < j < |s| ==> s[i] != s[j]
    ensures |Elements(s)| == |s|
  {
    if s != [] {
      var init := s[..|s| - 1];
      DistinctSize(init);
      assert Elements(s) == Elements(init) + {s[|s| - 1]};
    }
  }

  /**
   A call that gives up with "please retry" overlapped at least five other landed activations: one
   between each of its reads and the next, and one after the last.
   */
  lemma GivingUpTakesFive(k0: Key, es: seq<Event>, pid: nat)
    requires Fresh(k0) && var st := Run(Begin(k0), es); pid in st.calls && st.calls[pid].phase.GaveUp?
    ensures var st := Run(Begin(k0), es);
            var c := st.calls[pid];
            && |c.views| == 5 && c.began <= c.views[0]
            && c.views[0] < c.views[1] < c.views[2] < c.views[3] < c.views[4] < |st.order|
            && pid !in st.order[c.began..]
            && |st.order| - c.began >= 5
  {
    RunKeepsInv(k0, es);
    var st := Run(Begin(k0), es);
    assert CallOk(st.calls[pid], |st.order|, st.revokedAt, k0);
  }

  /** Reads that find the key owned, unrevoked and unexpired. */
  predicate Welcoming(k0: Key, es: seq<Event>) {
    forall i :: 0 <= i < |es| ==> WelcomingEvent(k0, es[i])
  }

  ghost predicate OnlyLimited(st: State) {
    && !st.key.status.REVOKED?
    && forall p :: p in st.calls ==>
         && st.calls[p].organization == st.key.organization
         && (st.calls[p].phase.Rejected? ==>
               st.calls[p].phase.reason == LimitReached
               && st.key.activationCount >= st.key.activationLimit)
  }

  predicate WelcomingEvent(k0: Key, e: Event) {
    match e
    case Start(_, organization) => organization == k0.organization
    case Read(_, now) => k0.expiresAt.None? || now <= k0.expiresAt.value
    case Revoke => false
    case _ => true
  }

  lemma NextOnlyLimited(st: State, e: Event, k0: Key)
    requires KeyOk(st, k0) && OnlyLimited(st) && WelcomingEvent(k0, e)
    ensures OnlyLimited(Next(st, e))
  {
    var st' := Next(st, e);
    forall p | p in st'.calls
      ensures st'.calls[p].organization == st'.key.organization
      ensures st'.calls[p].phase.Rejected? ==>
                st'.calls[p].phase.reason == LimitReached
                && st'.key.activationCount >= st'.key.activationLimit
    {
      assert p in st.calls || e.Start?;
    }
  }

  /** A transfer moves the key to another license, and changes nothing that an activation reads. */
  lemma TransferMovesTheKey(st: State, license: string, es: seq<Event>)
    ensures var st' := Next(st, Transfer(license));
            && st'.key.license == license
            && st' == st.(key := st.key.(license := st'.key.license))
    ensures (forall i :: 0 <= i < |es| ==> !es[i].Transfer?) ==>
              Run(Next(st, Transfer(license)), es).key.license == license
  {
    if forall i :: 0 <= i < |es| ==> !es[i].Transfer? {
      LicenseStays(Next(st, Transfer(license)), es);
    }
  }

  lemma {:induction false} LicenseStays(st: State, es: seq<Event>)
    requires forall i :: 0 <= i < |es| ==> !es[i].Transfer?
    ensures Run(st, es).key.license == st.key.license
  {
    if es != [] {
      var before := es[..|es| - 1];
      assert forall i :: 0 <= i < |before| ==> before[i] == es[i];
      LicenseStays(st, before);
      assert !es[|es| - 1].Transfer?;
    }
  }

  // ---- who is let in, and when ----

  /**
   What a read of `k` by a caller of `organization` at time `now` comes to: the caller goes on to its swap
   exactly when the key is its organization's, not revoked, not past its expiry and not full; else it is
   told the first of these that fails.
   */
  predicate Judged(k: Key, organization: string, now: int, ph: Phase) {
    var own := k.organization == organization;
    var inTime := k.expiresAt.None? || now <= k.expiresAt.value;
    && (ph == Swapping(k.activationCount) <==>
          own && !k.status.REVOKED? && inTime && k.activationCount < k.activationLimit)
    && (ph == Rejected(NotFound) <==> !own)
    && (ph == Rejected(Revoked) <==> own && k.status.REVOKED?)
    && (ph == Rejected(Expired) <==> own && !k.status.REVOKED? && !inTime)
    && (ph == Rejected(LimitReached) <==>
          own && !k.status.REVOKED? && inTime && k.activationCount >= k.activationLimit)
  }

  lemma ReadIsJudged(st: State, c: Call, now: int)
    ensures Judged(st.key, c.organization, now, AfterRead(st, c, now).phase)
  {
  }

  /** When the call last read the key. */
  function LastRead(k0: Key, es: seq<Event>, pid: nat): Option<int> {
    if es == [] then None
    else
      var (st, e) := (Run(Begin(k0), es[..|es| - 1]), es[|es| - 1]);
      if e.Read? && e.pid == pid && pid in st.calls && st.calls[pid].phase.Reading? then Some(e.now)
      else LastRead(k0, es[..|es| - 1], pid)
  }

  predicate InTime(k0: Key, read: Option<int>) {
    read.Some? && (k0.expiresAt.None? || read.value <= k0.expiresAt.value)
  }

  /** What call `c` has come to is what its last read, if any, calls for. */
  ghost predicate Rightly(st: State, k0: Key, c: Call, read: Option<int>) {
    match c.phase
    case Reading => c.views == [] || (c.organization == k0.organization && InTime(k0, read))
    case Rejected(NotFound) => c.organization != k0.organization
    case Rejected(Revoked) => c.organization == k0.organization && st.revokedAt.Some?
    case Rejected(Expired) =>
      && c.organization == k0.organization
      && read.Some? && k0.expiresAt.Some? && k0.expiresAt.value < read.value
    case Rejected(LimitReached) =>
      && c.organization == k0.organization && InTime(k0, read)
      && st.key.activationCount == st.key.activationLimit
    case _ => c.organization == k0.organization && InTime(k0, read)
  }

  lemma StepIsRightly(k0: Key, st: State, e: Event, pid: nat, read: Option<int>, read': Option<int>)
    requires Inv(st, k0) && Inv(Next(st, e), k0) && pid in Next(st, e).calls
    requires pid in st.calls ==> Rightly(st, k0, st.calls[pid], read)
    requires read' == if e.Read? && e.pid == pid && pid in st.calls && st.calls[pid].phase.Reading? then Some(e.now)
                      else read
    ensures Rightly(Next(st, e), k0, Next(st, e).calls[pid], read')
  {
    var st' := Next(st, e);
    hide CallsOk, OrderOk;
    if e.Read? && e.pid == pid && pid in st.calls && st.calls[pid].phase.Reading? {
      ReadIsJudged(st, st.calls[pid], e.now);
      hide Refusal;
    }
  }

  /**
   In every run, whoever landed or is about to swap belongs to the key's organization and last read the key
   not after its expiry; and whoever was refused was refused for what it then read.
   */
  lemma {:induction false} EveryCallIsJudgedRightly(k0: Key, es: seq<Event>, pid: nat)
    requires Fresh(k0) && pid in Run(Begin(k0), es).calls
    ensures Rightly(Run(Begin(k0), es), k0, Run(Begin(k0), es).calls[pid], LastRead(k0, es, pid))
  {
    var (before, e) := (es[..|es| - 1], es[|es| - 1]);
    RunKeepsInv(k0, before);
    RunKeepsInv(k0, es);
    if pid in Run(Begin(k0), before).calls {
      EveryCallIsJudgedRightly(k0, before, pid);
    }
    StepIsRightly(k0, Run(Begin(k0), before), e, pid, LastRead(k0, before, pid), LastRead(k0, es, pid));
  }

  /** Calls of one organization only, which read at one instant only. */
  predicate OnlyAt(es: seq<Event>, organization: string, now: int) {
    forall i :: 0 <= i < |es| ==>
      (es[i].Start? ==> es[i].organization == organization) && (es[i].Read? ==> es[i].now == now)
  }

  lemma {:induction false} CallsAreOnlyAt(k0: Key, es: seq<Event>, organization: string, now: int, pid: nat)
    requires OnlyAt(es, organization, now) && pid in Run(Begin(k0), es).calls
    ensures Run(Begin(k0), es).calls[pid].organization == organization
    ensures LastRead(k0, es, pid) in {None, Some(now)}
  {
    var (before, e) := (es[..|es| - 1], es[|es| - 1]);
    assert forall i :: 0 <= i < |before| ==> before[i] == es[i];
    var st := Run(Begin(k0), before);
    if pid in st.calls {
      CallsAreOnlyAt(k0, before, organization, now, pid);
    } else {
      NeverRead(k0, before, pid);
    }
    hide Refusal;
  }

  lemma {:induction false} NeverRead(k0: Key, es: seq<Event>, pid: nat)
    requires pid !in Run(Begin(k0), es).calls
    ensures LastRead(k0, es, pid).None?
  {
    if es != [] { NeverRead(k0, es[..|es| - 1], pid); }
  }

  /**
   The exact condition: calls of an organization that read at `now` can activate the key if and only if it
   is that organization's, has not expired by then, and has room.
   */
  lemma ActivatesIff(k0: Key, organization: string, now: int)
    requires Fresh(k0)
    ensures (exists es :: OnlyAt(es, organization, now) && Run(Begin(k0), es).order != [])
       <==> && organization == k0.organization
            && (k0.expiresAt.Some? ==> now <= k0.expiresAt.value)
            && k0.activationCount < k0.activationLimit
  {
    if es :| OnlyAt(es, organization, now) && Run(Begin(k0), es).order != [] {
      var st := Run(Begin(k0), es);
      RunKeepsInv(k0, es);
      var pid := st.order[0];
      assert pid in st.order;
      EveryCallIsJudgedRightly(k0, es, pid);
      CallsAreOnlyAt(k0, es, organization, now, pid);
    }
    if && organization == k0.organization && (k0.expiresAt.Some? ==> now <= k0.expiresAt.value)
       && k0.activationCount < k0.activationLimit {
      var es := LandsAlone(k0, now);
    }
  }

  lemma LandsAlone(k0: Key, now: int) returns (es: seq<Event>)
    requires Fresh(k0) && k0.activationCount < k0.activationLimit
    requires k0.expiresAt.Some? ==> now <= k0.expiresAt.value
    ensures OnlyAt(es, k0.organization, now) && Run(Begin(k0), es).order == [0]
  {
    es := [Start(0, k0.organization)] + [Read(0, now)] + [Swap(0)];
    Extend(Begin(k0), [], Start(0, k0.organization));
    assert [] + [Start(0, k0.organization)] == [Start(0, k0.organization)];
    Extend(Begin(k0), [Start(0, k0.organization)], Read(0, now));
    Extend(Begin(k0), [Start(0, k0.organization)] + [Read(0, now)], Swap(0));
    var st := Run(Begin(k0), [Start(0, k0.organization)]);
    assert st == State(k0, map[0 := Call(k0.organization, 0, [], Reading)], [], None);
    ReadIsJudged(st, st.calls[0], now);
  }

  /** If every read comes after the key has expired, nobody activates it. */
  lemma NobodyActivatesExpired(k0: Key, es: seq<Event>)
    requires Fresh(k0) && k0.expiresAt.Some?
    requires forall i :: 0 <= i < |es| && es[i].Read? ==> k0.expiresAt.value < es[i].now
    ensures Run(Begin(k0), es).order == []
  {
    RunKeepsInv(k0, es);
    var st := Run(Begin(k0), es);
    if st.order != [] {
      var pid := st.order[0];
      assert pid in st.order;
      EveryCallIsJudgedRightly(k0, es, pid);
      LastReadIsThere(k0, es, pid);
    }
  }

  lemma {:induction false} LastReadIsThere(k0: Key, es: seq<Event>, pid: nat)
    ensures var read := LastRead(k0, es, pid);
            read.Some? ==> exists i :: 0 <= i < |es| && es[i] == Read(pid, read.value)
  {
    hide Run, Next;
    if es != [] {
      var before := es[..|es| - 1];
      LastReadIsThere(k0, before, pid);
      assert forall i :: 0 <= i < |before| ==> before[i] == es[i];
    }
  }

  /** On a key nobody revokes and that does not expire the only refusal is a full key. */
  lemma {:induction false} RefusedOnlyWhenFull(k0: Key, es: seq<Event>)
    requires Fresh(k0) && Welcoming(k0, es)
    ensures OnlyLimited(Run(Begin(k0), es))
  {
    if es != [] {
      var before := es[..|es| - 1];
      assert forall i :: 0 <= i < |before| ==> before[i] == es[i];
      RefusedOnlyWhenFull(k0, before);
      RunKeepsInv(k0, before);
      NextOnlyLimited(Run(Begin(k0), before), es[|es| - 1], k0);
    }
  }

  /**
   Progress: at most five calls on an unrevoked, unexpired key with room for all of them. None gives
   up and none is refused, so every call that has ended has landed.
   */
  lemma FiveCallsAllLand(k0: Key, es: seq<Event>, pid: nat)
    requires Fresh(k0) && Welcoming(k0, es)
    requires var st := Run(Begin(k0), es);
             && pid in st.calls && |st.calls| <= 5
             && k0.activationCount + |st.calls| <= k0.activationLimit
    ensures var ph := Run(Begin(k0), es).calls[pid].phase;
            ph.Reading? || ph.Swapping? || ph.Landed?
  {
    RunKeepsInv(k0, es);
    RefusedOnlyWhenFull(k0, es);
    var st := Run(Begin(k0), es);
    if st.calls[pid].phase.Rejected? {
      OthersLanded(st, pid);
    } else if st.calls[pid].phase.GaveUp? {
      OthersLanded(st, pid);
      GivingUpTakesFive(k0, es, pid);
    }
  }

  lemma OthersLanded(st: State, pid: nat)
    requires OrderOk(st) && pid in st.calls && !st.calls[pid].phase.Landed?
    ensures |st.order| <= |st.calls| - 1
  {
    var landed := Elements(st.order);
    DistinctSize(st.order);
    assert landed <= st.calls.Keys - {pid};
    SubsetSize(landed, st.calls.Keys - {pid});
    assert |st.calls.Keys - {pid}| == |st.calls.Keys| - 1;
  }

  /** Revocation stops activation, but not at once: one swap that read the key before may still land. */
  lemma AtMostOneLandsAfterRevocation(k0: Key, es: seq<Event>)
    requires Fresh(k0) && Run(Begin(k0), es).revokedAt.Some?
    ensures var st := Run(Begin(k0), es);
            st.key.status.REVOKED? && |st.order| - st.revokedAt.value <= 1
  {
    RunKeepsInv(k0, es);
  }

  /** A caller reads the key, the key is revoked, the caller swaps. */
  lemma OneMayLandAfterRevocation(k0: Key, now: int)
    requires Fresh(k0) && k0.activationCount < k0.activationLimit
    requires k0.expiresAt.Some? ==> now <= k0.expiresAt.value
    ensures exists es ::
              var st := Run(Begin(k0), es);
              st.revokedAt.Some? && |st.order| == st.revokedAt.value + 1
  {
    var s0 := Begin(k0);
    assert Run(s0, []) == s0;
    ReadThenRevoked(k0, now);
    hide Run, Next;
    var e1 := [] + [Start(0, k0.organization)];
    Extend(s0, [], Start(0, k0.organization));
    Extend(s0, e1, Read(0, now));
    Extend(s0, e1 + [Read(0, now)], Revoke);
    Extend(s0, e1 + [Read(0, now)] + [Revoke], Swap(0));
    assert Run(s0, e1 + [Read(0, now)] + [Revoke] + [Swap(0)]).order == [0];
  }

  lemma ReadThenRevoked(k0: Key, now: int)
    requires Fresh(k0) && k0.activationCount < k0.activationLimit
    requires k0.expiresAt.Some? ==> now <= k0.expiresAt.value
    ensures var st := Next(Next(Next(Next(Begin(k0), Start(0, k0.organization)), Read(0, now)), Revoke), Swap(0));
            st.revokedAt == Some(0) && st.order == [0]
  {
    var s1 := Next(Begin(k0), Start(0, k0.organization));
    assert s1 == State(k0, map[0 := Call(k0.organization, 0, [], Reading)], [], None);
    ReadIsJudged(s1, s1.calls[0], now);
    var s2 := Next(s1, Read(0, now));
    assert s2.calls[0].phase == Swapping(k0.activationCount) && s2.key == k0 && s2.order == [];
    hide AfterRead;
    var s3 := Next(s2, Revoke);
    assert s3.calls == s2.calls && s3.revokedAt == Some(0) && s3.order == [];
  }

  /** A call whose swap expects the count the key has. */
  predicate Poised(st: State, p: nat) {
    p in st.calls && st.calls[p].phase == Swapping(st.key.activationCount)
  }

  ghost predicate NonePoised(st: State) {
    forall p :: !Poised(st, p)
  }

  /** A revoked key rejects whoever reads it, so nobody becomes poised any more. */
  lemma NothingLands(st: State, e: Event)
    requires st.key.status.REVOKED? && NonePoised(st)
    ensures var st' := Next(st, e);
            st'.key.status.REVOKED? && NonePoised(st') && st'.order == st.order
  {
    var st' := Next(st, e);
    assert forall p :: p in st.calls && st.calls[p].phase.Swapping? ==> !Poised(st, p);
    assert st'.key.activationCount == st.key.activationCount;
  }

  lemma {:induction false} NothingLandsAnyMore(st: State, es: seq<Event>)
    requires st.key.status.REVOKED? && NonePoised(st)
    ensures var st' := Run(st, es);
            st'.key.status.REVOKED? && NonePoised(st') && st'.order == st.order
  {
    hide NonePoised, Next;
    if es != [] {
      NothingLandsAnyMore(st, es[..|es| - 1]);
      NothingLands(Run(st, es[..|es| - 1]), es[|es| - 1]);
    }
  }

  /**
   The exact condition: from a state in which the key is revoked an activation can still land if and
   only if some caller is about to swap on the count as it stands.
   */
  lemma LandsAfterRevocationIffPoised(st: State)
    requires st.key.status.REVOKED?
    ensures (exists es :: Run(st, es).order != st.order) <==> (exists p :: Poised(st, p))
  {
    if p :| Poised(st, p) {
      var es := [Swap(p)];
      assert es[..0] == [];
      assert Run(st, es) == Next(st, Swap(p));
      assert |Run(st, es).order| == |st.order| + 1;
    } else {
      forall es ensures Run(st, es).order == st.order {
        NothingLandsAnyMore(st, es);
      }
    }
  }

  lemma Extend(st: State, es: seq<Event>, e: Event)
    ensures Run(st, es + [e]) == Next(Run(st, es), e)
  {
    assert (es + [e])[..|es|] == es;
  }

  // ---- the loop itself ----

  lemma {:induction false} RunAppend(st: State, es: seq<Event>, more: seq<Event>)
    ensures Run(st, es + more) == Run(Run(st, es), more)
    decreases |more|
  {
    if more == [] {
      assert es + more == es;
    } else {
      var last := |more| - 1;
      assert (es + more)[..|es + more| - 1] == es + more[..last];
      RunAppend(st, es, more[..last]);
    }
  }

  /** Steps of other callers and of the administrators. */
  predicate ByOthers(es: seq<Event>, pid: nat) {
    forall i :: 0 <= i < |es| ==>
      match es[i]
      case Start(p, _) => p != pid
      case Read(p, _) => p != pid
      case Swap(p) => p != pid
      case _ => true
  }

  lemma {:induction false} OthersLeaveCall(st: State, es: seq<Event>, pid: nat)
    requires ByOthers(es, pid)
    ensures (pid in Run(st, es).calls) == (pid in st.calls)
    ensures pid in st.calls ==> Run(st, es).calls[pid] == st.calls[pid]
    decreases |es|
  {
    if es != [] {
      var before := es[..|es| - 1];
      assert forall i :: 0 <= i < |before| ==> before[i] == es[i];
      OthersLeaveCall(st, before, pid);
    }
  }

  /** What happens around one round of the loop: steps before its read, its clock, steps before its swap. */
  datatype Round = Round(before: seq<Event>, now: int, during: seq<Event>)

  datatype ActivateResult = Activated | Refused(reason: Reason) | PleaseRetry

  function PhaseOf(r: ActivateResult): Phase {
    match r
    case Activated => Landed
    case Refused(reason) => Rejected(reason)
    case PleaseRetry => GaveUp
  }

  /**
   The row of one key, with the progress of every caller and the log of what landed. `trace` is the run of
   the machine that the updates amount to.
   */
  class LicenseKeysService {
    ghost const k0: Key

    var license: string
    var organization: string
    var activationLimit: nat
    var activationCount: nat
    var status: LicenseStatus
    var expiresAt: Option<int>

    var calls: map<nat, Call>
    var order: seq<nat>
    var revokedAt: Option<nat>
    ghost var trace: seq<Event>

    function Row(): Key
      reads this
    {
      Key(license, organization, activationLimit, activationCount, status, expiresAt)
    }

    function St(): State
      reads this
    {
      State(Row(), calls, order, revokedAt)
    }

    ghost predicate Valid()
      reads this
    {
      Fresh(k0) && St() == Run(Begin(k0), trace)
    }

    constructor (k: Key)
      requires Fresh(k)
      ensures Valid() && k0 == k && St() == Begin(k)
    {
      k0, trace := k, [];
      license, organization, activationLimit := k.license, k.organization, k.activationLimit;
      activationCount, status, expiresAt := k.activationCount, k.status, k.expiresAt;
      calls, order, revokedAt := map[], [], None;
    }

    /** Whatever other callers and administrators do meanwhile. */
    method Others(es: seq<Event>)
      requires Valid()
      modifies this
      ensures Valid() && St() == Run(old(St()), es) && trace == old(trace) + es
    {
      hide Run, Next;
      RunAppend(Begin(k0), trace, es);
      var st := Run(St(), es);
      license, organization, activationLimit := st.key.license, st.key.organization, st.key.activationLimit;
      activationCount, status, expiresAt := st.key.activationCount, st.key.status, st.key.expiresAt;
      calls, order, revokedAt := st.calls, st.order, st.revokedAt;
      trace := trace + es;
    }

    /** What has been done since `before` was the machine's step `e`. */
    ghost method Did(before: State, e: Event)
      requires Fresh(k0) && before == Run(Begin(k0), trace) && St() == Next(before, e)
      modifies this`trace
      ensures Valid() && trace == old(trace) + [e]
    {
      hide Next;
      Extend(Begin(k0), trace, e);
      trace := trace + [e];
    }

    /**
     `updateMany` on the row whose count is still `expected`: it counts one activation and changes nothing
     else, or changes no row at all. The caller has landed exactly when it tells that one row changed.
     */
    method IncrementIf(pid: nat, expected: nat) returns (count: nat)
      requires Valid() && pid in calls && calls[pid].phase == Swapping(expected)
      modifies this
      ensures Valid() && trace == old(trace) + [Swap(pid)]
      ensures count <= 1 && (count == 1 <==> old(activationCount) == expected)
      ensures Row() == old(Row()).(activationCount := old(activationCount) + count)
      ensures order == old(order) + if count == 1 then [pid] else []
      ensures pid in calls && calls[pid].views == old(calls)[pid].views
      ensures calls[pid].organization == old(calls)[pid].organization && calls[pid].began == old(calls)[pid].began
      ensures calls[pid].phase == if count == 1 then Landed
                                  else if |calls[pid].views| < MAX_ATTEMPTS then Reading else GaveUp
    {
      ghost var before := St();
      var call := calls[pid];
      if activationCount == expected {
        activationCount := activationCount + 1;
        order := order + [pid];
        calls := calls[pid := call.(phase := Landed)];
        count := 1;
      } else {
        calls := calls[pid := call.(phase := if |call.views| < MAX_ATTEMPTS then Reading else GaveUp)];
        count := 0;
      }
      hide Run;
      Did(before, Swap(pid));
    }

    /** The row as it is now; the call goes on to its swap, or is refused, as the row calls for. */
    method GetKey(pid: nat, now: int) returns (key: Key)
      requires Valid() && pid in calls && calls[pid].phase.Reading?
      modifies this`calls, this`trace
      ensures Valid() && trace == old(trace) + [Read(pid, now)] && key == Row()
      ensures pid in calls && calls[pid].organization == old(calls)[pid].organization
      ensures calls[pid].began == old(calls)[pid].began && |calls[pid].views| == |old(calls)[pid].views| + 1
      ensures calls - {pid} == old(calls) - {pid} && Judged(key, calls[pid].organization, now, calls[pid].phase)
    {
      ghost var before := St();
      ReadIsJudged(St(), calls[pid], now);
      key := Row();
      calls := calls[pid := AfterRead(St(), calls[pid], now)];
      hide Run;
      Did(before, Read(pid, now));
    }

    /** One round: the read with its checks, then the swap. No result means that the swap lost. */
    method TryOnce(pid: nat, round: Round) returns (r: Option<ActivateResult>)
      requires Valid() && pid in calls && calls[pid].phase.Reading?
      requires ByOthers(round.before, pid) && ByOthers(round.during, pid)
      modifies this
      ensures Valid() && old(trace) <= trace && pid in calls
      ensures var c, c' := old(calls)[pid], calls[pid];
              && c'.organization == c.organization && c'.began == c.began
              && |c'.views| == |c.views| + 1
              && c'.phase == if r.Some? then PhaseOf(r.value)
                             else if |c'.views| < MAX_ATTEMPTS then Reading else GaveUp
      ensures var k := Run(old(St()), round.before).key;
              Judged(k, old(calls)[pid].organization, round.now,
                     if r.Some? && r.value.Refused? then Rejected(r.value.reason) else Swapping(k.activationCount))
    {
      hide Run, ByOthers;
      OthersLeaveCall(St(), round.before, pid);
      Others(round.before);
      var caller := calls[pid].organization;
      var key := GetKey(pid, round.now);
      if key.organization != caller {
        return Some(Refused(NotFound));
      }
      if key.status.REVOKED? {
        return Some(Refused(Revoked));
      }
      if key.expiresAt.Some? && key.expiresAt.value < round.now {
        return Some(Refused(Expired));
      }
      if key.activationCount >= key.activationLimit {
        return Some(Refused(LimitReached));
      }
      OthersLeaveCall(St(), round.during, pid);
      Others(round.during);
      var count := IncrementIf(pid, key.activationCount);
      r := if count == 1 then Some(Activated) else None;
    }

    /** The call begins. */
    method BeginCall(pid: nat, caller: string)
      requires Valid() && pid !in calls
      modifies this`calls, this`trace
      ensures Valid() && trace == old(trace) + [Start(pid, caller)]
      ensures pid in calls && calls[pid] == Call(caller, |order|, [], Reading)
    {
      ghost var before := St();
      calls := calls[pid := Call(caller, |order|, [], Reading)];
      hide Run;
      Did(before, Start(pid, caller));
    }

    /**
     The activation loop, with any steps of others between its own. It ends as its call ends in the
     machine, so all that is proved of calls there holds of it; in particular "please retry" means
     that five other activations landed during the call.
     */
    method Activate(pid: nat, caller: string, rounds: seq<Round>) returns (r: ActivateResult)
      requires Valid() && pid !in calls
      requires |rounds| == MAX_ATTEMPTS
      requires forall i :: 0 <= i < |rounds| ==>
                             ByOthers(rounds[i].before, pid) && ByOthers(rounds[i].during, pid)
      modifies this
      ensures Valid() && old(trace) <= trace
      ensures pid in calls && calls[pid].phase == PhaseOf(r)
      ensures r.Activated? <==> pid in order
      ensures r.PleaseRetry? ==> |order| >= |old(order)| + 5
    {
      BeginCall(pid, caller);
      hide Run, Next, ByOthers;
      var attempt := 0;
      while attempt < MAX_ATTEMPTS
        invariant 0 <= attempt <= MAX_ATTEMPTS
        invariant Valid() && old(trace) <= trace
        invariant pid in calls && |calls[pid].views| == attempt
        invariant calls[pid].began == |old(order)|
        invariant calls[pid].phase == if attempt < MAX_ATTEMPTS then Reading else GaveUp
      {
        var ended := TryOnce(pid, rounds[attempt]);
        if ended.Some? {
          LandedIsLogged(k0, trace, pid);
          GivingUpIsLate(k0, trace, pid);
          return ended.value;
        }
        attempt := attempt + 1;
      }
      LandedIsLogged(k0, trace, pid);
      GivingUpIsLate(k0, trace, pid);
      r := PleaseRetry;
    }
  }

  lemma LandedIsLogged(k0: Key, es: seq<Event>, pid: nat)
    requires Fresh(k0) && pid in Run(Begin(k0), es).calls
    ensures var st := Run(Begin(k0), es); st.calls[pid].phase.Landed? <==> pid in st.order
  {
    RunKeepsInv(k0, es);
  }

  lemma GivingUpIsLate(k0: Key, es: seq<Event>, pid: nat)
    requires Fresh(k0) && pid in Run(Begin(k0), es).calls
    ensures var st := Run(Begin(k0), es);
            st.calls[pid].phase.GaveUp? ==> |st.order| >= st.calls[pid].began + 5
  {
    if Run(Begin(k0), es).calls[pid].phase.GaveUp? {
      GivingUpTakesFive(k0, es, pid);
    }
  }
}
