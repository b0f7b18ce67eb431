/** The session methods of the auth service, each request running by itself on the session table. */
module SessionService {
  import opened Common
  import opened Sessions

  datatype RefreshResult = Pair(token: nat) | InvalidSession | SessionRevoked | SessionExpired

  class AuthService {
    var sessions: seq<Session>
    ghost var origins: seq<Option<nat>>

    ghost function Table(): State
      reads this
    {
      State(sessions, origins, map[])
    }

    ghost predicate Valid()
      reads this
    {
      Inv(Table()) && Unforked(Table())
    }

    /** Two live sessions of one lineage are the same session. */
    ghost predicate OneLivePerLogin()
      reads this
    {
      && Backward(origins)
      && |origins| == |sessions|
      && forall i: nat, j: nat | i < |sessions| && j < |sessions| && Live(sessions[i]) && Live(sessions[j]) ::
           Root(origins, i) == Root(origins, j) ==> i == j
    }

    lemma ValidMeansOneLive()
      requires Valid()
      ensures OneLivePerLogin()
    {
      hide Root;
      forall i: nat, j: nat | i < |sessions| && j < |sessions| && Live(sessions[i]) && Live(sessions[j])
        ensures Backward(origins) && (Root(origins, i) == Root(origins, j) ==> i == j)
      {
        QuietLineage(Table(), i, j);
      }
    }

    constructor ()
      ensures Valid() && sessions == []
    {
      sessions, origins := [], [];
      new;
      EmptyTableIsSound();
    }

    /** Two writes: the new session, then the mark on the one it replaces. */
    method IssueTokenPair(user: string, rememberMe: bool, deviceName: Option<string>, replaced: Option<nat>,
                          now: int)
      returns (token: nat)
      requires replaced.Some? ==> replaced.value < |sessions|
      modifies this
      ensures token == |old(sessions)| && origins == old(origins) + [replaced]
      ensures sessions == (if replaced.None? then old(sessions) else
        old(sessions)[replaced.value := old(sessions)[replaced.value].(revokedAt := Some(now),
                                                                         replacedById := Some(token))])
        + [Issued(user, rememberMe, deviceName, now)]
    {
      token := |sessions|;
      sessions, origins := sessions + [Issued(user, rememberMe, deviceName, now)], origins + [replaced];
      if replaced.Some? {
        var id := replaced.value;
        sessions := sessions[id := sessions[id].(revokedAt := Some(now), replacedById := Some(token))];
      }
    }

    method Login(user: string, rememberMe: bool, deviceName: Option<string>, now: int) returns (token: nat)
      requires Valid()
      modifies this
      ensures Valid() && OneLivePerLogin()
      ensures token == |old(sessions)| && Table() == Next(old(Table()), Sessions.Login(user, rememberMe, deviceName, now))
      ensures token < |sessions| && Live(sessions[token]) && sessions[token].user == user
      ensures sessions[token].expiresAt == now + if rememberMe then 2_592_000_000 else 86_400_000
    {
      hide Inv, Unforked;
      token := IssueTokenPair(user, rememberMe, deviceName, None, now);
      NextKeepsInv(old(Table()), Sessions.Login(user, rememberMe, deviceName, now));
      assert Table() == Next(old(Table()), Sessions.Login(user, rememberMe, deviceName, now));
      ValidMeansOneLive();
    }

    /** A live token is exchanged once; a revoked one costs its user every live session. */
    method Refresh(token: nat, now: int) returns (r: RefreshResult)
      requires Valid()
      modifies this
      ensures Valid() && OneLivePerLogin()
      ensures r.InvalidSession? <==> token >= |old(sessions)|
      ensures r.SessionRevoked? <==> token < |old(sessions)| && !Live(old(sessions)[token])
      ensures r.SessionExpired? <==>
        token < |old(sessions)| && Live(old(sessions)[token]) && old(sessions)[token].expiresAt < now
      ensures r.InvalidSession? || r.SessionExpired? ==> Table() == old(Table())
      ensures r.SessionRevoked? ==>
        ShutOut(Table(), old(sessions)[token].user) && Table() == Replay(old(Table()), 0, token, now)
        && OnlyUserRevoked(old(sessions), sessions, old(sessions)[token].user, now)
      ensures r.Pair? ==> r.token == |old(sessions)| && Table() == Exchanged(old(Table()), token, now)
      ensures r.Pair? ==>
        && token < r.token < |sessions| && sessions[token].replacedById == Some(r.token) && !Live(sessions[token])
        && Live(sessions[r.token]) && SameOwner(sessions[token], sessions[r.token])
        && sessions[r.token].expiresAt == now + (if old(sessions)[token].rememberMe then 2_592_000_000 else 86_400_000)
        && sessions[token] == old(sessions)[token].(revokedAt := Some(now), replacedById := Some(r.token))
        && |sessions| == |old(sessions)| + 1
        && forall i :: 0 <= i < |old(sessions)| && i != token ==> sessions[i] == old(sessions)[i]
    {
      hide Inv, Unforked;
      if token >= |sessions| {
        r := InvalidSession;
      } else if !Live(sessions[token]) {
        ReplayPunishes(Table(), 0, token, now);
        ReplayForksNothing(Table(), token, now);
        RevokeAllSessions(sessions[token].user, now);
        r := SessionRevoked;
      } else if sessions[token].expiresAt < now {
        r := SessionExpired;
      } else {
        ExchangeKeepsInv(Table(), token, now);
        var s := sessions[token];
        var next := IssueTokenPair(s.user, s.rememberMe, s.deviceName, Some(token), now);
        assert Table() == Exchanged(old(Table()), token, now);
        r := Pair(next);
      }
      ValidMeansOneLive();
    }

    method Logout(token: Option<nat>, now: int)
      requires Valid()
      modifies this
      ensures Valid() && origins == old(origins)
      ensures if token.Some? && token.value < |old(sessions)| && Live(old(sessions)[token.value])
              then OnlyRevoked(old(sessions), sessions, token.value, now) else sessions == old(sessions)
      ensures Table() == if token.Some? && token.value < |old(sessions)| && Live(old(sessions)[token.value])
                         then Next(old(Table()), RevokeOne(token.value, now)) else old(Table())
    {
      hide Inv, Unforked;
      if token.Some? && token.value < |sessions| && Live(sessions[token.value]) {
        var id := token.value;
        NextKeepsInv(Table(), RevokeOne(id, now));
        sessions := sessions[id := sessions[id].(revokedAt := Some(now))];
      }
    }

    method RevokeSession(user: string, id: nat, now: int) returns (found: bool)
      requires Valid()
      modifies this
      ensures Valid() && origins == old(origins)
      ensures if found then OnlyRevoked(old(sessions), sessions, id, now) else sessions == old(sessions)
      ensures found == (id < |old(sessions)| && old(sessions)[id].user == user)
      ensures Table() == if found then Next(old(Table()), RevokeOne(id, now)) else old(Table())
    {
      hide Inv, Unforked;
      found := id < |sessions| && sessions[id].user == user;
      if found {
        NextKeepsInv(Table(), RevokeOne(id, now));
        sessions := sessions[id := sessions[id].(revokedAt := Some(now))];
      }
    }

    method RevokeAllSessions(user: string, now: int)
      requires Valid()
      modifies this
      ensures Valid() && ShutOut(Table(), user) && origins == old(origins)
      ensures OnlyUserRevoked(old(sessions), sessions, user, now)
      ensures Table() == Next(old(Table()), RevokeUser(user, now))
    {
      hide Inv, Unforked;
      NextKeepsInv(Table(), RevokeUser(user, now));
      sessions := RevokedFor(sessions, user, now);
    }
  }

  /** Session `id` is revoked, with its other fields as they were, and every other session is as it was. */
  ghost predicate OnlyRevoked(was: seq<Session>, sessions: seq<Session>, id: nat, now: int) {
    && id < |was| == |sessions|
    && !Live(sessions[id]) && sessions[id] == was[id].(revokedAt := Some(now))
    && forall i :: 0 <= i < |was| && i != id ==> sessions[i] == was[i]
  }

  /** The live sessions of `user` are revoked, and every other session is as it was. */
  ghost predicate OnlyUserRevoked(was: seq<Session>, sessions: seq<Session>, user: string, now: int) {
    && |was| == |sessions|
    && forall i :: 0 <= i < |was| ==>
         sessions[i] == if was[i].user == user && was[i].revokedAt.None? then was[i].(revokedAt := Some(now)) else was[i]
  }

  /** The three steps of an undisturbed refresh. */
  function Exchanged(st: State, token: nat, now: int): State {
    Next(Next(Next(st, Load(0, token, now)), Create(0, now)), Mark(0, now))
  }

  lemma ExchangeKeepsInv(st: State, token: nat, now: int)
    requires Inv(st) && Unforked(st) && st.calls == map[]
    requires token < |st.sessions| && Live(st.sessions[token]) && now <= st.sessions[token].expiresAt
    ensures Inv(Exchanged(st, token, now)) && Unforked(Exchanged(st, token, now))
    ensures Exchanged(st, token, now) == State(
              st.sessions[token := st.sessions[token].(revokedAt := Some(now), replacedById := Some(|st.sessions|))]
              + [Successor(st.sessions[token], now)],
              st.origins + [Some(token)], map[])
  {
    var s1 := Next(st, Load(0, token, now));
    var s2 := Next(s1, Create(0, now));
    hide Inv, Unforked;
    NextKeepsInv(st, Load(0, token, now));
    NextKeepsInv(s1, Create(0, now));
    NextKeepsInv(s2, Mark(0, now));
  }

  lemma ReplayForksNothing(st: State, token: nat, now: int)
    requires Inv(st) && Unforked(st) && st.calls == map[]
    requires token < |st.sessions| && !Live(st.sessions[token])
    ensures Unforked(Replay(st, 0, token, now))
    ensures Replay(st, 0, token, now) == Next(st, RevokeUser(st.sessions[token].user, now))
  {
    hide Inv, Unforked;
    NextKeepsInv(st, RevokeUser(st.sessions[token].user, now));
  }
}
