/**
 Refresh-token rotation. Each refresh loads the presented token's session, creates its successor and
 marks it replaced, in three steps that other requests may come between; a replayed token is punished
 by revoking all of its user's sessions.
 */
module Sessions {
  import opened Common

  /** REFRESH_TOKEN_TTL_MS */
  const TTL_DEFAULT := 24 * 60 * 60 * 1000
  const TTL_REMEMBER_ME := 30 * TTL_DEFAULT

  /** A session row. The id of a row is its place in the table, which its refresh token stands for too. */
  datatype Session = Session(user: string, rememberMe: bool, deviceName: Option<string>, expiresAt: int,
                             revokedAt: Option<int>, replacedById: Option<nat>)

  /** Where a call of `refresh` in flight has got to. */
  datatype Phase =
    | Creating(prior: nat)
    | Marking(prior: nat, heir: nat)
    | Punishing(user: string)

  /** `origins` remembers, for each session, the one it was issued to replace. */
  datatype State = State(sessions: seq<Session>, origins: seq<Option<nat>>, calls: map<nat, Phase>)

  datatype Event =
    | Login(user: string, rememberMe: bool, deviceName: Option<string>, now: int)
    | Load(call: nat, token: nat, now: int)
    | Create(call: nat, now: int)
    | Mark(call: nat, now: int)
    | Punish(call: nat, now: int)
    | Fail(call: nat)
    | RevokeOne(id: nat, now: int)
    | RevokeUser(user: string, now: int)

  const Init := State([], [], map[])

  predicate Live(s: Session) {
    s.revokedAt.None?
  }

  function Issued(user: string, rememberMe: bool, deviceName: Option<string>, now: int): Session {
    Session(user, rememberMe, deviceName, now + if rememberMe then TTL_REMEMBER_ME else TTL_DEFAULT, None, None)
  }

  /** The one update behind `revokeAllSessions` and `invalidateSessions`. */
  function RevokedFor(sessions: seq<Session>, user: string, now: int): (r: seq<Session>)
    ensures |r| == |sessions|
  {
    seq(|sessions|, i requires 0 <= i < |sessions| =>
      if sessions[i].user == user && Live(sessions[i]) then sessions[i].(revokedAt := Some(now)) else sessions[i])
  }

  function Append(st: State, s: Session, origin: Option<nat>): State {
    st.(sessions := st.sessions + [s], origins := st.origins + [origin])
  }

  /** The session that `prior`'s refresh issues: same user, same choices, a new expiry. */
  function Successor(prior: Session, now: int): Session {
    Issued(prior.user, prior.rememberMe, prior.deviceName, now)
  }

  function Loaded(st: State, call: nat, token: nat, now: int): State {
    if call in st.calls || token >= |st.sessions| then st
    else
      var s := st.sessions[token];
      if !Live(s) then st.(calls := st.calls[call := Punishing(s.user)])
      else if s.expiresAt < now then st
      else st.(calls := st.calls[call := Creating(token)])
  }

  /** A step that is not possible in `st` changes nothing. */
  function Next(st: State, e: Event): State {
    match e
    case Login(user, rememberMe, deviceName, now) =>
      Append(st, Issued(user, rememberMe, deviceName, now), None)
    case Load(call, token, now) => Loaded(st, call, token, now)
    case Create(call, now) =>
      if call in st.calls && st.calls[call].Creating? && st.calls[call].prior < |st.sessions| then
        var prior := st.calls[call].prior;
        Append(st, Successor(st.sessions[prior], now), Some(prior))
        .(calls := st.calls[call := Marking(prior, |st.sessions|)])
      else st
    case Mark(call, now) =>
      if call in st.calls && st.calls[call].Marking? && st.calls[call].prior < |st.sessions| then
        var (prior, heir) := (st.calls[call].prior, st.calls[call].heir);
        st.(sessions := st.sessions[prior := st.sessions[prior].(revokedAt := Some(now), replacedById := Some(heir))],
            calls := st.calls - {call})
      else st
    case Punish(call, now) =>
      if call in st.calls && st.calls[call].Punishing?
      then st.(sessions := RevokedFor(st.sessions, st.calls[call].user, now), calls := st.calls - {call})
      else st
    case Fail(call) =>
      // A refresh that fails after it created the successor leaves its work half done for good.
      if call in st.calls && !st.calls[call].Marking? then st.(calls := st.calls - {call}) else st
    case RevokeOne(id, now) =>
      if id < |st.sessions|
      then st.(sessions := st.sessions[id := st.sessions[id].(revokedAt := Some(now))])
      else st
    case RevokeUser(user, now) => st.(sessions := RevokedFor(st.sessions, user, now))
  }

  function Run(st: State, es: seq<Event>): State {
    if es == [] then st else Next(Run(st, es[..|es| - 1]), es[|es| - 1])
  }

  // ---- what every step keeps, whatever comes between ----

  /** Successors come later in the table, and belong to the same user with the same choices. */
  ghost predicate OriginsOk(st: State) {
    && |st.origins| == |st.sessions|
    && forall j: nat :: j < |st.origins| && st.origins[j].Some? ==>
         && st.origins[j].value < j
         && SameOwner(st.sessions[st.origins[j].value], st.sessions[j])
  }

  predicate SameOwner(s: Session, t: Session) {
    s.user == t.user && s.rememberMe == t.rememberMe && s.deviceName == t.deviceName
  }

  /** A link `replacedById` leads from a revoked session to one that was issued to replace it. */
  ghost predicate LinksOk(st: State) {
    forall i: nat :: i < |st.sessions| && st.sessions[i].replacedById.Some? ==>
      && !Live(st.sessions[i])
      && i < st.sessions[i].replacedById.value < |st.origins|
      && st.origins[st.sessions[i].replacedById.value] == Some(i)
  }

  ghost predicate CallsOk(st: State) {
    forall c :: c in st.calls ==>
      match st.calls[c]
      case Creating(prior) => prior < |st.sessions|
      case Marking(prior, heir) => prior < heir < |st.origins| && st.origins[heir] == Some(prior)
      case Punishing(user) => true
  }

  ghost predicate Marked(st: State, i: nat, j: nat) {
    exists c :: c in st.calls && st.calls[c] == Marking(i, j)
  }

  predicate ChildOfLive(st: State, j: nat) {
    && j < |st.origins| && st.origins[j].Some? && st.origins[j].value < |st.sessions|
    && Live(st.sessions[st.origins[j].value])
  }

  /** A session that has a successor is revoked, unless a call has still to mark it. */
  ghost predicate ParentsOk(st: State) {
    forall j: nat :: ChildOfLive(st, j) ==> Marked(st, st.origins[j].value, j)
  }

  ghost predicate Inv(st: State) {
    OriginsOk(st) && LinksOk(st) && CallsOk(st) && ParentsOk(st)
  }

  /** No session is issued twice to replace the same one. */
  ghost predicate OneSuccessor(st: State) {
    forall j: nat, k: nat ::
      j < |st.origins| && k < |st.origins| && st.origins[j].Some? && st.origins[j] == st.origins[k] ==> j == k
  }

  ghost predicate OneHolder(st: State) {
    forall c, d | c in st.calls && d in st.calls && Holds(st.calls[c]).Some? ::
      Holds(st.calls[c]) == Holds(st.calls[d]) ==> c == d
  }

  ghost predicate NoneYet(st: State) {
    forall c, j: nat :: c in st.calls && st.calls[c].Creating? && j < |st.origins| ==>
      st.origins[j] != Some(st.calls[c].prior)
  }

  /** No session has two successors, nor two calls at work on it. */
  ghost predicate Unforked(st: State) {
    OneSuccessor(st) && OneHolder(st) && NoneYet(st)
  }

  /** The session a call in flight is replacing. */
  function Holds(p: Phase): Option<nat> {
    if p.Punishing? then None else Some(p.prior)
  }

  /** No call in flight is replacing the session of this token. */
  ghost predicate Unheld(st: State, token: nat) {
    forall c :: c in st.calls ==> Holds(st.calls[c]) != Some(token)
  }

  /** No token is presented while a refresh of that token is unfinished. */
  ghost predicate Disciplined(st: State, es: seq<Event>) {
    es == [] ||
    (var (before, e) := (es[..|es| - 1], es[|es| - 1]);
     Disciplined(st, before) && (e.Load? ==> Unheld(Run(st, before), e.token)))
  }

  /** Some sessions are revoked and some calls that are not marking end. */
  ghost predicate OnlyRevokes(st: State, st': State) {
    && st'.origins == st.origins
    && |st'.sessions| == |st.sessions|
    && (forall i: nat :: i < |st.sessions| ==>
          && SameOwner(st.sessions[i], st'.sessions[i])
          && st'.sessions[i].replacedById == st.sessions[i].replacedById
          && (Live(st'.sessions[i]) ==> Live(st.sessions[i])))
    && (forall c :: c in st'.calls ==> c in st.calls && st'.calls[c] == st.calls[c])
    && (forall c :: c in st.calls && st.calls[c].Marking? ==> c in st'.calls)
  }

  lemma RevokingKeepsInv(st: State, st': State)
    requires Inv(st) && OnlyRevokes(st, st')
    ensures Inv(st')
    ensures Unforked(st) ==> Unforked(st')
  {
  }

  lemma RevocationsOnlyRevoke(st: State, e: Event)
    requires e.Punish? || e.Fail? || e.RevokeOne? || e.RevokeUser?
    ensures OnlyRevokes(st, Next(st, e))
  {
  }

  lemma LoginKeepsRows(st: State, e: Event)
    requires Inv(st) && e.Login?
    ensures OriginsOk(Next(st, e)) && LinksOk(Next(st, e)) && CallsOk(Next(st, e))
  {
    hide ParentsOk;
    var st' := Next(st, e);
    assert CallsOk(st') by { hide LinksOk, OriginsOk; }
    assert LinksOk(st') by { hide CallsOk, SameOwner; }
    hide LinksOk, CallsOk, SameOwner;
  }

  lemma LoginKeepsInv(st: State, e: Event)
    requires Inv(st) && e.Login?
    ensures Inv(Next(st, e))
  {
    var st' := Next(st, e);
    LoginKeepsRows(st, e);
    MarkedStays(st, st');
    hide OriginsOk, LinksOk, CallsOk, Marked;
    forall j: nat | ChildOfLive(st', j) ensures Marked(st', st'.origins[j].value, j) {
      assert ChildOfLive(st, j);
    }
  }

  lemma LoginForksNothing(st: State, e: Event)
    requires Inv(st) && Unforked(st) && e.Login?
    ensures Unforked(Next(st, e))
  {
    hide LinksOk, ParentsOk, CallsOk;
  }

  lemma LoadKeepsInv(st: State, e: Event)
    requires Inv(st) && e.Load?
    ensures Inv(Next(st, e))
  {
    var st' := Next(st, e);
    MarkedStays(st, st');
    assert CallsOk(st') by { hide Marked, LinksOk, ParentsOk; }
    hide Marked, CallsOk, OriginsOk, LinksOk;
    assert st'.sessions == st.sessions && st'.origins == st.origins;
    OnlyCallsChange(st, st');
  }

  lemma MarkedStays(st: State, st': State)
    requires forall c :: c in st.calls ==> c in st'.calls && st'.calls[c] == st.calls[c]
    ensures forall i: nat, j: nat :: Marked(st, i, j) ==> Marked(st', i, j)
  {
    forall i: nat, j: nat | Marked(st, i, j) ensures Marked(st', i, j) {
      var c :| c in st.calls && st.calls[c] == Marking(i, j);
      assert st'.calls[c] == Marking(i, j);
    }
  }

  lemma OnlyCallsChange(st: State, st': State)
    requires Inv(st) && st'.sessions == st.sessions && st'.origins == st.origins && CallsOk(st')
    requires forall i: nat, j: nat :: Marked(st, i, j) ==> Marked(st', i, j)
    ensures Inv(st')
  {
    hide Marked, CallsOk;
  }

  lemma UnheldIsUnmarked(st: State, token: nat)
    requires Unheld(st, token)
    ensures forall j: nat :: !Marked(st, token, j)
  {
    forall c, j: nat | c in st.calls ensures st.calls[c] != Marking(token, j) {
      assert Holds(st.calls[c]) != Some(token);
    }
  }

  /** A live session that no call is replacing has no successor, so a refresh may give it one. */
  lemma LoadForksNothing(st: State, e: Event)
    requires Inv(st) && Unforked(st) && e.Load? && Unheld(st, e.token)
    ensures Unforked(Next(st, e))
  {
    var st' := Next(st, e);
    if st' != st && st'.calls[e.call].Creating? {
      UnheldIsUnmarked(st, e.token);
      hide Marked;
      assert forall j: nat :: j < |st.origins| ==> st.origins[j] != Some(e.token);
      hide LinksOk, OriginsOk, ParentsOk, CallsOk;
      assert OneHolder(st');
      assert NoneYet(st');
    }
  }

  lemma CreateKeepsInv(st: State, e: Event)
    requires Inv(st) && e.Create?
    ensures Inv(Next(st, e))
  {
    var st' := Next(st, e);
    if st' != st {
      forall i: nat, j: nat | Marked(st, i, j) ensures Marked(st', i, j) {
        var c :| c in st.calls && st.calls[c] == Marking(i, j);
        assert st'.calls[c] == Marking(i, j);
      }
      assert st'.calls[e.call] == Marking(st.calls[e.call].prior, |st.sessions|);
      assert Marked(st', st.calls[e.call].prior, |st.sessions|);
      hide Marked;
      assert OriginsOk(st');
      assert ParentsOk(st');
    }
  }

  lemma CreateForksNothing(st: State, e: Event)
    requires Inv(st) && Unforked(st) && e.Create?
    ensures Unforked(Next(st, e))
  {
    hide LinksOk, ParentsOk;
    var st' := Next(st, e);
    assert OneSuccessor(st');
    assert OneHolder(st');
    assert NoneYet(st');
  }

  lemma MarkKeepsRows(st: State, e: Event)
    requires Inv(st) && e.Mark?
    ensures OriginsOk(Next(st, e)) && LinksOk(Next(st, e)) && CallsOk(Next(st, e))
  {
    hide ParentsOk;
    assert CallsOk(Next(st, e)) by { hide LinksOk, SameOwner; }
    assert LinksOk(Next(st, e)) by { hide SameOwner; }
    hide LinksOk, CallsOk;
  }

  lemma MarkKeepsInv(st: State, e: Event)
    requires Inv(st) && e.Mark?
    ensures Inv(Next(st, e))
  {
    var st' := Next(st, e);
    MarkKeepsRows(st, e);
    hide LinksOk, OriginsOk, SameOwner;
    forall j: nat | ChildOfLive(st', j) ensures Marked(st', st'.origins[j].value, j) {
      assert ChildOfLive(st, j);
      var c :| c in st.calls && st.calls[c] == Marking(st.origins[j].value, j);
      assert st'.calls[c] == st.calls[c];
    }
  }

  lemma MarkForksNothing(st: State, e: Event)
    requires Unforked(st) && e.Mark?
    ensures Unforked(Next(st, e))
  {
  }

  /** Every step keeps the links sound; one that presents no token still in flight forks no lineage. */
  lemma NextKeepsInv(st: State, e: Event)
    requires Inv(st)
    ensures Inv(Next(st, e))
    ensures Unforked(st) && (e.Load? ==> Unheld(st, e.token)) ==> Unforked(Next(st, e))
  {
    hide *;
    match e
    case Login(_, _, _, _) =>
      LoginKeepsInv(st, e);
      if Unforked(st) { LoginForksNothing(st, e); }
    case Load(_, _, _) =>
      LoadKeepsInv(st, e);
      if Unforked(st) && Unheld(st, e.token) { LoadForksNothing(st, e); }
    case Create(_, _) =>
      CreateKeepsInv(st, e);
      if Unforked(st) { CreateForksNothing(st, e); }
    case Mark(_, _) =>
      MarkKeepsInv(st, e);
      if Unforked(st) { MarkForksNothing(st, e); }
    case _ =>
      RevocationsOnlyRevoke(st, e);
      RevokingKeepsInv(st, Next(st, e));
  }

  lemma {:induction false} RunKeepsInv(es: seq<Event>)
    ensures Inv(Run(Init, es))
    ensures Disciplined(Init, es) ==> Unforked(Run(Init, es))
  {
    hide Next, Inv, Unforked;
    if es == [] {
      EmptyTableIsSound();
    } else {
      RunKeepsInv(es[..|es| - 1]);
      NextKeepsInv(Run(Init, es[..|es| - 1]), es[|es| - 1]);
    }
  }

  lemma EmptyTableIsSound()
    ensures Inv(Init) && Unforked(Init)
  {
  }

  // ---- what the lineages come to ----

  /** Whatever requests overlap, links lead forward and no two lead to the same session: no cycle, no join. */
  lemma LinksAreSound(es: seq<Event>)
    ensures var s := Run(Init, es).sessions;
            && (forall i: nat :: i < |s| && s[i].replacedById.Some? ==>
                  i < s[i].replacedById.value < |s| && !Live(s[i]) && SameOwner(s[i], s[s[i].replacedById.value]))
            && (forall i: nat, j: nat | i < |s| && j < |s| && s[i].replacedById.Some? ::
                  s[i].replacedById == s[j].replacedById ==> i == j)
  {
    hide Run, Next;
    RunKeepsInv(es);
  }

  ghost predicate Backward(origins: seq<Option<nat>>) {
    forall j: nat :: j < |origins| && origins[j].Some? ==> origins[j].value < j
  }

  /** The login a session descends from. */
  ghost function Root(origins: seq<Option<nat>>, i: nat): (r: nat)
    requires i < |origins| && Backward(origins)
    ensures r <= i
  {
    if origins[i].None? then i else Root(origins, origins[i].value)
  }

  /** When no session has two successors, a lineage is one line: the older of two has a successor in it. */
  lemma {:induction false} LineageIsALine(st: State, i: nat, j: nat) returns (k: nat)
    requires i < j < |st.origins| && Backward(st.origins) && OneSuccessor(st)
    requires Root(st.origins, i) == Root(st.origins, j)
    ensures i < k <= j && st.origins[k] == Some(i)
    decreases i + j
  {
    var p := st.origins[j].value;
    if p == i {
      k := j;
    } else if p > i {
      k := LineageIsALine(st, i, p);
    } else {
      var q := st.origins[i].value;
      if q < p {
        k := LineageIsALine(st, q, p);
      } else {
        k := LineageIsALine(st, p, q);
      }
    }
  }

  /**
   Where no token is presented while its refresh is unfinished, a lineage has two live sessions only
   between the two writes of a refresh that is replacing the older one.
   */
  lemma OneLivePerLineage(es: seq<Event>, i: nat, j: nat)
    requires Disciplined(Init, es)
    requires var st := Run(Init, es);
             i < j < |st.sessions| && Live(st.sessions[i]) && Live(st.sessions[j])
    ensures var st := Run(Init, es);
            |st.origins| == |st.sessions| && Backward(st.origins)
    ensures var st := Run(Init, es);
            Root(st.origins, i) == Root(st.origins, j) ==> exists k :: Marked(st, i, k)
  {
    hide Run, Next, Marked;
    RunKeepsInv(es);
    var st := Run(Init, es);
    if Root(st.origins, i) == Root(st.origins, j) {
      var k := LineageIsALine(st, i, j);
      assert Marked(st, i, k);
    }
  }

  /** With no call in flight, a lineage has at most one live session. */
  lemma QuietLineage(st: State, i: nat, j: nat)
    requires Inv(st) && Unforked(st) && st.calls == map[]
    requires i < |st.sessions| && j < |st.sessions| && Live(st.sessions[i]) && Live(st.sessions[j])
    ensures Backward(st.origins) && (Root(st.origins, i) == Root(st.origins, j) ==> i == j)
  {
    UnheldIsUnmarked(st, i);
    UnheldIsUnmarked(st, j);
    hide Marked;
    if Root(st.origins, i) == Root(st.origins, j) && i != j {
      var k;
      if i < j {
        k := LineageIsALine(st, i, j);
      } else {
        k := LineageIsALine(st, j, i);
      }
    }
  }

  // ---- what the punishment of a replay comes to ----

  ghost predicate ShutOut(st: State, user: string) {
    forall i: nat :: i < |st.sessions| && st.sessions[i].user == user ==> !Live(st.sessions[i])
  }

  /** No refresh of one of the user's sessions is past its check and short of its new session. */
  ghost predicate NoRacer(st: State, user: string) {
    forall c :: c in st.calls && st.calls[c].Creating? && st.calls[c].prior < |st.sessions| ==>
      st.sessions[st.calls[c].prior].user != user
  }

  lemma ShutOutStays(st: State, e: Event, user: string)
    requires ShutOut(st, user) && NoRacer(st, user)
    requires Inv(st) && !(e.Login? && e.user == user)
    ensures ShutOut(Next(st, e), user) && NoRacer(Next(st, e), user)
  {
    hide LinksOk, ParentsOk;
  }

  lemma {:induction false} ShutOutForGood(st: State, es: seq<Event>, user: string)
    requires Inv(st) && ShutOut(st, user) && NoRacer(st, user)
    requires forall i :: 0 <= i < |es| ==> !(es[i].Login? && es[i].user == user)
    ensures Inv(Run(st, es)) && ShutOut(Run(st, es), user) && NoRacer(Run(st, es), user)
  {
    hide Next, Inv, ShutOut, NoRacer;
    if es != [] {
      var before := es[..|es| - 1];
      ShutOutForGood(st, before, user);
      ShutOutStays(Run(st, before), es[|es| - 1], user);
      NextKeepsInv(Run(st, before), es[|es| - 1]);
    }
  }

  /** What a revoked token's refresh does when its steps follow each other. */
  function Replay(st: State, call: nat, token: nat, now: int): State {
    Next(Next(st, Load(call, token, now)), Punish(call, now))
  }

  lemma ReplayPunishes(st: State, call: nat, token: nat, now: int)
    requires Inv(st) && call !in st.calls && token < |st.sessions| && !Live(st.sessions[token])
    ensures var st' := Replay(st, call, token, now);
            var user := st.sessions[token].user;
            Inv(st') && ShutOut(st', user) && (NoRacer(st, user) ==> NoRacer(st', user))
  {
    hide Inv;
    NextKeepsInv(st, Load(call, token, now));
    NextKeepsInv(Next(st, Load(call, token, now)), Punish(call, now));
  }

  /**
   A replayed token leaves its user without a live session; and, unless another of the user's
   refreshes had passed its check by then, so does every later run until the user logs in again.
   */
  lemma ReplayShutsOut(es: seq<Event>, call: nat, token: nat, now: int, later: seq<Event>)
    requires var st := Run(Init, es);
             call !in st.calls && token < |st.sessions| && !Live(st.sessions[token])
    ensures var st := Run(Init, es);
            ShutOut(Replay(st, call, token, now), st.sessions[token].user)
    ensures var st := Run(Init, es);
            var user := st.sessions[token].user;
            NoRacer(st, user)
            && (forall i :: 0 <= i < |later| ==> !(later[i].Login? && later[i].user == user)) ==>
              ShutOut(Run(Replay(st, call, token, now), later), user)
  {
    var st := Run(Init, es);
    var user := st.sessions[token].user;
    hide Run, Inv;
    RunKeepsInv(es);
    ReplayPunishes(st, call, token, now);
    hide Next, ShutOut, NoRacer, Replay;
    if NoRacer(st, user) && forall i :: 0 <= i < |later| ==> !(later[i].Login? && later[i].user == user) {
      ShutOutForGood(Replay(st, call, token, now), later, user);
    }
  }

  /** That other refresh, if there is one, does leave the user a live session behind the punishment. */
  lemma RacerSlipsThrough(es: seq<Event>, call: nat, token: nat, now: int, racer: nat)
    requires var st := Run(Init, es);
             call !in st.calls && token < |st.sessions| && !Live(st.sessions[token])
    requires var st := Run(Init, es);
             racer in st.calls && st.calls[racer].Creating? && st.calls[racer].prior < |st.sessions|
             && st.sessions[st.calls[racer].prior].user == st.sessions[token].user
    ensures var st := Run(Init, es);
            !ShutOut(Run(Replay(st, call, token, now), [Create(racer, now)]), st.sessions[token].user)
  {
    var st := Run(Init, es);
    RunKeepsInv(es);
    hide Run, Inv;
    var st1 := Replay(st, call, token, now);
    var st2 := Next(st1, Create(racer, now));
    OneStep(st1, Create(racer, now));
    assert st1.calls[racer] == st.calls[racer];
    var n: nat := |st1.sessions|;
    assert st2.sessions[n].user == st.sessions[token].user && Live(st2.sessions[n]);
  }

  lemma OneStep(st: State, e: Event)
    ensures Run(st, [e]) == Next(st, e)
  {
    assert [e][..0] == [];
  }

  /** A refresh that fails before its new session leaves no trace; behind it the mark stays undone. */
  lemma FailureLeavesNoTrace(st: State, call: nat)
    requires call in st.calls
    ensures var st' := Next(st, Fail(call));
            && st' == st.(calls := st'.calls)
            && (st.calls[call].Marking? ==> st' == st)
            && (!st.calls[call].Marking? ==> call !in st'.calls && st'.calls == st.calls - {call})
  {
  }

  // ---- what a revocation comes to ----

  /** No step brings a revoked session back. */
  lemma RevokedStaysRevoked(st: State, e: Event, id: nat)
    requires id < |st.sessions| && !Live(st.sessions[id])
    ensures id < |Next(st, e).sessions| && !Live(Next(st, e).sessions[id])
  {
  }

  lemma {:induction false} RevokedForGood(st: State, es: seq<Event>, id: nat)
    requires id < |st.sessions| && !Live(st.sessions[id])
    ensures id < |Run(st, es).sessions| && !Live(Run(st, es).sessions[id])
  {
    if es != [] {
      hide Next, Live;
      RevokedForGood(st, es[..|es| - 1], id);
      RevokedStaysRevoked(Run(st, es[..|es| - 1]), es[|es| - 1], id);
    }
  }

  /** A session that is logged out or revoked is not live, then and after any run from there. */
  lemma RevocationIsFinal(st: State, id: nat, now: int, es: seq<Event>)
    requires id < |st.sessions|
    ensures var st' := Next(st, RevokeOne(id, now));
            && st' == st.(sessions := st'.sessions) && |st'.sessions| == |st.sessions|
            && st'.sessions[id].revokedAt == Some(now)
            && (forall i :: 0 <= i < |st.sessions| && i != id ==> st'.sessions[i] == st.sessions[i])
            && id < |Run(st', es).sessions| && !Live(Run(st', es).sessions[id])
  {
    RevokedForGood(Next(st, RevokeOne(id, now)), es, id);
  }

  /** A refresh of the session is past its check and short of its new session. */
  ghost predicate AboutToIssue(st: State, id: nat) {
    exists c :: c in st.calls && st.calls[c] == Creating(id)
  }

  /** The sessions issued from the `n`-th on to replace session `id`. */
  ghost predicate IssuedFor(st: State, id: nat, n: nat) {
    exists j :: n <= j < |st.origins| && st.origins[j] == Some(id)
  }

  lemma NothingIsIssued(st: State, e: Event, id: nat, n: nat)
    requires id < |st.sessions| && !Live(st.sessions[id]) && !AboutToIssue(st, id) && !IssuedFor(st, id, n)
    ensures !AboutToIssue(Next(st, e), id) && !IssuedFor(Next(st, e), id, n)
  {
    var st' := Next(st, e);
    forall c | c in st'.calls ensures st'.calls[c] != Creating(id) {
      assert c in st.calls ==> st.calls[c] != Creating(id);
    }
    forall j | n <= j < |st'.origins| ensures st'.origins[j] != Some(id) {
      assert j < |st.origins| ==> st'.origins[j] == st.origins[j];
      if e.Create? && e.call in st.calls && st.calls[e.call].Creating? {
        assert st.calls[e.call] != Creating(id);
      }
    }
  }

  lemma {:induction false} NothingIsEverIssued(st: State, es: seq<Event>, id: nat, n: nat)
    requires id < |st.sessions| && !Live(st.sessions[id]) && !AboutToIssue(st, id) && !IssuedFor(st, id, n)
    ensures !AboutToIssue(Run(st, es), id) && !IssuedFor(Run(st, es), id, n)
  {
    if es != [] {
      hide Next, Live, AboutToIssue, IssuedFor;
      NothingIsEverIssued(st, es[..|es| - 1], id, n);
      RevokedForGood(st, es[..|es| - 1], id);
      NothingIsIssued(Run(st, es[..|es| - 1]), es[|es| - 1], id, n);
    }
  }

  /** The token of a revoked session can still be exchanged if and only if a refresh had passed its check. */
  lemma RevokedTokenIssuesIff(st: State, id: nat)
    requires Inv(st) && id < |st.sessions| && !Live(st.sessions[id])
    ensures (exists es :: IssuedFor(Run(st, es), id, |st.sessions|)) <==> AboutToIssue(st, id)
  {
    if AboutToIssue(st, id) {
      var c :| c in st.calls && st.calls[c] == Creating(id);
      OneStep(st, Create(c, 0));
      assert Run(st, [Create(c, 0)]).origins[|st.origins|] == Some(id);
      assert IssuedFor(Run(st, [Create(c, 0)]), id, |st.sessions|);
    } else {
      forall es ensures !IssuedFor(Run(st, es), id, |st.sessions|) {
        NothingIsEverIssued(st, es, id, |st.sessions|);
      }
    }
  }

  // ---- when a presentation forks a lineage ----

  /** Afterwards no token is presented while in flight, and yet some session is given two successors. */
  ghost predicate ForksLater(st: State, es: seq<Event>) {
    Disciplined(st, es) && !OneSuccessor(Run(st, es))
  }

  lemma {:induction false} DisciplineKeepsUnforked(st: State, es: seq<Event>)
    requires Inv(st) && Unforked(st) && Disciplined(st, es)
    ensures Inv(Run(st, es)) && Unforked(Run(st, es))
  {
    hide Next, Inv, Unforked, Unheld;
    if es != [] {
      DisciplineKeepsUnforked(st, es[..|es| - 1]);
      NextKeepsInv(Run(st, es[..|es| - 1]), es[|es| - 1]);
    }
  }

  lemma OneCreate(st: State, c: nat, now: int)
    ensures Run(st, [Create(c, now)]) == Next(st, Create(c, now)) && Disciplined(st, [Create(c, now)])
  {
    var es := [Create(c, now)];
    assert es[..0] == [];
    assert Run(st, []) == st && Disciplined(st, []);
  }

  lemma TwoCreates(st: State, c: nat, d: nat, now: int)
    ensures Run(st, [Create(c, now), Create(d, now)]) == Next(Next(st, Create(c, now)), Create(d, now))
    ensures Disciplined(st, [Create(c, now), Create(d, now)])
  {
    var es := [Create(c, now), Create(d, now)];
    OneCreate(st, c, now);
    assert es[..1] == [Create(c, now)];
    assert Disciplined(st, es[..1]);
  }

  /** A holder in flight has created its successor, or is about to; so is the call that has just loaded. */
  lemma HeldForks(st: State, c: nat, token: nat, now: int, d: nat) returns (es: seq<Event>)
    requires Inv(st) && c !in st.calls && token < |st.sessions|
    requires Live(st.sessions[token]) && now <= st.sessions[token].expiresAt
    requires d in st.calls && Holds(st.calls[d]) == Some(token)
    ensures ForksLater(Next(st, Load(c, token, now)), es)
  {
    var st1 := Next(st, Load(c, token, now));
    assert st1.calls[c] == Creating(token) && st1.calls[d] == st.calls[d] && d != c;
    var n := |st.origins|;
    hide Run, Disciplined;
    if st.calls[d].Creating? {
      es := [Create(c, now), Create(d, now)];
      TwoCreates(st1, c, d, now);
      var st2 := Next(st1, Create(c, now));
      assert st2.calls[d] == Creating(token);
      var st3 := Next(st2, Create(d, now));
      assert st3.origins[n] == Some(token) && st3.origins[n + 1] == Some(token);
    } else {
      es := [Create(c, now)];
      OneCreate(st1, c, now);
      var heir := st.calls[d].heir;
      var st2 := Next(st1, Create(c, now));
      assert st2.origins[heir] == Some(token) && st2.origins[n] == Some(token) && heir < n;
    }
  }

  /**
   The exact condition. When a live token is presented, its session can come to have two successors, though
   no token is presented out of turn from then on, if and only if a refresh of it was still in flight:
   before its new session was created, or before it was marked.
   */
  lemma ForksIffHeld(st: State, c: nat, token: nat, now: int)
    requires Inv(st) && Unforked(st) && c !in st.calls && token < |st.sessions|
    requires Live(st.sessions[token]) && now <= st.sessions[token].expiresAt
    ensures (exists es :: ForksLater(Next(st, Load(c, token, now)), es)) <==> !Unheld(st, token)
  {
    if Unheld(st, token) {
      forall es ensures !ForksLater(Next(st, Load(c, token, now)), es) {
        if Disciplined(Next(st, Load(c, token, now)), es) {
          NextKeepsInv(st, Load(c, token, now));
          DisciplineKeepsUnforked(Next(st, Load(c, token, now)), es);
        }
      }
    } else {
      var d :| d in st.calls && Holds(st.calls[d]) == Some(token);
      var es := HeldForks(st, c, token, now, d);
    }
  }

  /** Two calls load the same token, then each creates its successor, then each marks. */
  function Overlap(st: State, token: nat, c: nat, d: nat, now: int): State {
    var loaded := Next(Next(st, Load(c, token, now)), Load(d, token, now));
    var created := Next(Next(loaded, Create(c, now)), Create(d, now));
    Next(Next(created, Mark(c, now)), Mark(d, now))
  }

  /** Without that discipline any live token, presented twice at once, becomes two live sessions. */
  lemma OverlapForks(st: State, token: nat, c: nat, d: nat, now: int)
    requires Inv(st) && token < |st.sessions| && Live(st.sessions[token]) && now <= st.sessions[token].expiresAt
    requires c !in st.calls && d !in st.calls && c != d
    ensures var (st', n) := (Overlap(st, token, c, d, now), |st.sessions|);
            && st'.calls == st.calls
            && |st'.sessions| == n + 2 && Live(st'.sessions[n]) && Live(st'.sessions[n + 1])
            && st'.origins == st.origins + [Some(token), Some(token)]
  {
    var s2 := Next(Next(st, Load(c, token, now)), Load(d, token, now));
    assert s2.calls[c] == s2.calls[d] == Creating(token) && s2.sessions == st.sessions;
    var s4 := Next(Next(s2, Create(c, now)), Create(d, now));
    assert s4.calls[c].Marking? && s4.calls[d].Marking?;
    assert s4.calls - {c} - {d} == st.calls;
  }
}
