/** User sessions with rotating refresh tokens. A refresh token is good for one
    rotation of a live session; `accepted` lists the rotations that happened. */
module SessionModel {
  import opened Basics

  const SESSION_SECONDS: Time := 1209600.0

  datatype Token = Token(session: Id, user: Id, jti: nat)

  datatype Session = Session(user: Id, jti: nat, expiresAt: Time, revokedAt: Option<Time>)

  datatype AuthWorld = AuthWorld(
    sessions: map<Id, Session>,
    accepted: seq<Token>,
    nextSession: Id,
    nextJti: nat)

  const EmptyAuth := AuthWorld(map[], [], 1, 0)

  function Login(w: AuthWorld, u: Id, now: Time): AuthWorld {
    w.(sessions := w.sessions[w.nextSession := Session(u, w.nextJti, now + SESSION_SECONDS, None)],
       nextSession := w.nextSession + 1, nextJti := w.nextJti + 1)
  }

  /** The session exists, is the user's, is neither revoked nor expired, and this
      is its current token. */
  predicate Accepts(w: AuthWorld, t: Token, now: Time) {
    t.session in w.sessions
    && var s := w.sessions[t.session];
       s.user == t.user && s.revokedAt.None? && s.expiresAt > now && s.jti == t.jti
  }

  function Refresh(w: AuthWorld, t: Token, now: Time): AuthWorld {
    if !Accepts(w, t, now) then w
    else w.(sessions := w.sessions[t.session := w.sessions[t.session].(jti := w.nextJti, expiresAt := now + SESSION_SECONDS)],
            accepted := w.accepted + [t], nextJti := w.nextJti + 1)
  }

  function RevokeIf(s: Session, hit: bool, now: Time): Session {
    if hit && s.revokedAt.None? then s.(revokedAt := Some(now)) else s
  }

  /** Ban, password reset or change, deactivation: every session of the user. */
  function RevokeUser(w: AuthWorld, u: Id, now: Time): AuthWorld {
    w.(sessions := map i | i in w.sessions :: RevokeIf(w.sessions[i], w.sessions[i].user == u, now))
  }

  /** Logout overwrites an earlier revocation time. */
  function Logout(w: AuthWorld, session: Id, u: Id, now: Time): AuthWorld {
    if session in w.sessions && w.sessions[session].user == u
    then w.(sessions := w.sessions[session := w.sessions[session].(revokedAt := Some(now))]) else w
  }

  datatype AuthCall =
    | LoginCall(u: Id)
    | RefreshCall(token: Token)
    | RevokeUserCall(u: Id)
    | LogoutCall(session: Id, u: Id)

  function AuthStep(w: AuthWorld, c: AuthCall, now: Time): AuthWorld {
    match c
    case LoginCall(u) => Login(w, u, now)
    case RefreshCall(t) => Refresh(w, t, now)
    case RevokeUserCall(u) => RevokeUser(w, u, now)
    case LogoutCall(i, u) => Logout(w, i, u, now)
  }

  function AuthRun(w: AuthWorld, h: seq<(Time, AuthCall)>): AuthWorld
    decreases |h|
  {
    if h == [] then w else AuthRun(AuthStep(w, h[0].1, h[0].0), h[1..])
  }

  // ----- the invariant -----

  ghost predicate AuthSound(w: AuthWorld) {
    && (forall i :: i in w.sessions ==> i < w.nextSession && w.sessions[i].jti < w.nextJti)
    && (forall i, j :: i in w.sessions && j in w.sessions && w.sessions[i].jti == w.sessions[j].jti ==> i == j)
    && (forall n :: 0 <= n < |w.accepted| ==> Spent(w, w.accepted[n]))
    && (forall n, m :: 0 <= n < m < |w.accepted| ==>
          w.accepted[n].jti < w.accepted[m].jti || w.accepted[n].session != w.accepted[m].session)
  }

  /** The session moved on from this token. */
  ghost predicate Spent(w: AuthWorld, t: Token) {
    t.session in w.sessions && w.sessions[t.session].user == t.user && t.jti < w.sessions[t.session].jti
  }

  ghost predicate Revoked(w: AuthWorld, i: Id) {
    i in w.sessions && w.sessions[i].revokedAt.Some?
  }

  /** Spent tokens stay spent when sessions only gain newer tokens. */
  lemma SpentKept(w: AuthWorld, w1: AuthWorld)
    requires AuthSound(w) && w1.accepted == w.accepted
    requires forall i :: i in w.sessions ==>
      i in w1.sessions && w1.sessions[i].user == w.sessions[i].user && w.sessions[i].jti <= w1.sessions[i].jti
    ensures forall n :: 0 <= n < |w1.accepted| ==> Spent(w1, w1.accepted[n])
  {
    forall n | 0 <= n < |w1.accepted|
      ensures Spent(w1, w1.accepted[n])
    {
      assert Spent(w, w.accepted[n]);
    }
  }

  lemma RefreshKeeps(w: AuthWorld, t: Token, now: Time)
    requires AuthSound(w) && Accepts(w, t, now)
    ensures AuthSound(Refresh(w, t, now))
  {
    var w1 := Refresh(w, t, now);
    var n1 := |w.accepted|;
    assert Spent(w1, t);
    forall n | 0 <= n < n1
      ensures Spent(w1, w.accepted[n])
      ensures w.accepted[n].jti < t.jti || w.accepted[n].session != t.session
    {
      assert Spent(w, w.accepted[n]);
    }
    assert forall n :: 0 <= n < |w1.accepted| ==> w1.accepted[n] == if n < n1 then w.accepted[n] else t;
  }

  lemma AuthStepKeeps(w: AuthWorld, c: AuthCall, now: Time)
    requires AuthSound(w)
    ensures AuthSound(AuthStep(w, c, now))
  {
    match c
    case LoginCall(u) => SpentKept(w, Login(w, u, now));
    case RefreshCall(t) =>
      if Accepts(w, t, now) {
        RefreshKeeps(w, t, now);
      }
    case RevokeUserCall(u) => SpentKept(w, RevokeUser(w, u, now));
    case LogoutCall(i, u) => SpentKept(w, Logout(w, i, u, now));
  }

  lemma StepSpent(w: AuthWorld, c: AuthCall, now: Time, t: Token)
    requires AuthSound(w) && Spent(w, t)
    ensures Spent(AuthStep(w, c, now), t)
  {
  }

  /** A token the server has rotated is refused for ever after. */
  lemma {:induction false} SpentForEver(w: AuthWorld, h: seq<(Time, AuthCall)>, t: Token, now: Time)
    requires AuthSound(w) && Spent(w, t)
    ensures AuthSound(AuthRun(w, h)) && Spent(AuthRun(w, h), t) && !Accepts(AuthRun(w, h), t, now)
    decreases |h|
  {
    if h != [] {
      AuthStepKeeps(w, h[0].1, h[0].0);
      StepSpent(w, h[0].1, h[0].0, t);
      SpentForEver(AuthStep(w, h[0].1, h[0].0), h[1..], t, now);
    }
  }

  /** Over any run from an empty table each token is accepted at most once. */
  lemma {:induction false} AuthRunKeeps(w: AuthWorld, h: seq<(Time, AuthCall)>)
    requires AuthSound(w)
    ensures AuthSound(AuthRun(w, h))
    ensures forall n, m :: 0 <= n < m < |AuthRun(w, h).accepted| ==> AuthRun(w, h).accepted[n] != AuthRun(w, h).accepted[m]
    decreases |h|
  {
    if h != [] {
      AuthStepKeeps(w, h[0].1, h[0].0);
      AuthRunKeeps(AuthStep(w, h[0].1, h[0].0), h[1..]);
    }
  }

  /** A revoked session stays revoked and no token of it is accepted again. */
  lemma {:induction false} RevokedNeverRefreshes(w: AuthWorld, h: seq<(Time, AuthCall)>, i: Id)
    requires AuthSound(w) && Revoked(w, i)
    ensures var w1 := AuthRun(w, h);
      Revoked(w1, i) && |w.accepted| <= |w1.accepted|
      && forall n :: |w.accepted| <= n < |w1.accepted| ==> w1.accepted[n].session != i
    ensures AuthRun(w, h).accepted[..|w.accepted|] == w.accepted
    decreases |h|
  {
    if h != [] {
      var w1 := AuthStep(w, h[0].1, h[0].0);
      AuthStepKeeps(w, h[0].1, h[0].0);
      RevokedNeverRefreshes(w1, h[1..], i);
      assert w1.accepted[..|w.accepted|] == w.accepted;
      assert w1.accepted != w.accepted ==> w1.accepted[|w.accepted|].session != i;
    }
  }

  // ----- lifetimes and revocations, in full -----

  /** A login opens one session; its token is good for fourteen days and no longer,
      for that session and user only. */
  lemma LoginOutcome(w: AuthWorld, u: Id, now: Time, later: Time)
    requires AuthSound(w)
    ensures var w1, t := Login(w, u, now), Token(w.nextSession, u, w.nextJti);
      && (Accepts(w1, t, later) <==> later < now + 1209600.0)
      && w1.sessions.Keys == w.sessions.Keys + {w.nextSession} && w.nextSession !in w.sessions
      && (forall i :: i in w.sessions ==> w1.sessions[i] == w.sessions[i])
  {
  }

  /** A refresh of the current token in time hands out the only token good from then
      on, for another fourteen days; any other refresh changes nothing. */
  lemma RefreshOutcome(w: AuthWorld, t: Token, now: Time, x: Token, later: Time)
    requires AuthSound(w)
    ensures var w1 := Refresh(w, t, now);
      if Accepts(w, t, now) then
        && (x.session == t.session ==>
              (Accepts(w1, x, later) <==> x == Token(t.session, t.user, w.nextJti) && later < now + 1209600.0))
        && (x.session != t.session ==> (Accepts(w1, x, later) <==> Accepts(w, x, later)))
      else w1 == w
  {
  }

  /** Ban and password change end the sessions of that user, logout the one named if
      it is the user's own; no other session is touched, and an earlier time of
      revocation is overwritten by a logout only. */
  lemma RevocationOutcome(w: AuthWorld, u: Id, i: Id, now: Time, x: Token, later: Time)
    requires AuthSound(w)
    ensures Accepts(RevokeUser(w, u, now), x, later) <==> Accepts(w, x, later) && x.user != u
    ensures Accepts(Logout(w, i, u, now), x, later) <==> Accepts(w, x, later) && !(x.session == i && x.user == u)
    ensures forall j :: j in w.sessions ==>
      && j in RevokeUser(w, u, now).sessions
      && RevokeUser(w, u, now).sessions[j].revokedAt
         == if w.sessions[j].user == u && w.sessions[j].revokedAt.None? then Some(now) else w.sessions[j].revokedAt
    ensures i in w.sessions && w.sessions[i].user == u ==> Logout(w, i, u, now).sessions[i].revokedAt == Some(now)
  {
  }

  /** The write half of a refresh, without looking at the session again. */
  function Rotate(w: AuthWorld, t: Token, now: Time): AuthWorld
    requires t.session in w.sessions
  {
    w.(sessions := w.sessions[t.session := w.sessions[t.session].(jti := w.nextJti, expiresAt := now + SESSION_SECONDS)],
       accepted := w.accepted + [t], nextJti := w.nextJti + 1)
  }

  class AuthService {
    var sessions: map<Id, Session>
    ghost var accepted: seq<Token>
    var nextSession: Id
    var nextJti: nat

    ghost function Snapshot(): AuthWorld
      reads this
    {
      AuthWorld(sessions, accepted, nextSession, nextJti)
    }

    ghost predicate Valid()
      reads this
    {
      AuthSound(Snapshot())
    }

    constructor ()
      ensures Valid() && Snapshot() == EmptyAuth
    {
      sessions, accepted, nextSession, nextJti := map[], [], 1, 0;
    }

    /** `make_token_pair`: a new session, or a new token for an old one. */
    method MakeTokenPair(u: Id, session: Option<Id>, now: Time) returns (token: Token)
      requires session.Some? ==> session.value in sessions
      modifies this`sessions, this`nextSession, this`nextJti
      ensures nextJti == old(nextJti) + 1 && token.jti == old(nextJti) && token.user == u
      ensures session.None? ==>
        token.session == old(nextSession) && nextSession == old(nextSession) + 1
        && sessions == old(sessions)[token.session := Session(u, token.jti, now + SESSION_SECONDS, None)]
      ensures session.Some? ==>
        token.session == session.value && nextSession == old(nextSession)
        && sessions == old(sessions)[token.session :=
             old(sessions)[token.session].(jti := token.jti, expiresAt := now + SESSION_SECONDS)]
    {
      var jti := nextJti;
      nextJti := nextJti + 1;
      var i := nextSession;
      if session.None? {
        sessions := sessions[i := Session(u, jti, now + SESSION_SECONDS, None)];
        nextSession := nextSession + 1;
      } else {
        i := session.value;
        sessions := sessions[i := sessions[i].(jti := jti, expiresAt := now + SESSION_SECONDS)];
      }
      token := Token(i, u, jti);
    }

    method LogIn(u: Id, now: Time) returns (token: Token)
      requires Valid()
      modifies this
      ensures Valid() && Snapshot() == AuthStep(old(Snapshot()), LoginCall(u), now) && Accepts(Snapshot(), token, now)
    {
      AuthStepKeeps(Snapshot(), LoginCall(u), now);
      token := MakeTokenPair(u, None, now);
    }

    method RefreshAccessToken(t: Token, now: Time) returns (token: Option<Token>)
      requires Valid()
      modifies this
      ensures Valid() && Snapshot() == AuthStep(old(Snapshot()), RefreshCall(t), now)
      ensures token.Some? <==> Accepts(old(Snapshot()), t, now)
      ensures token.Some? ==> Accepts(Snapshot(), token.value, now) && !Accepts(Snapshot(), t, now)
    {
      AuthStepKeeps(Snapshot(), RefreshCall(t), now);
      if t.session !in sessions {
        return None;
      }
      var s := sessions[t.session];
      if s.user != t.user || s.revokedAt.Some? || s.expiresAt <= now || s.jti != t.jti {
        return None;
      }
      var next := MakeTokenPair(s.user, Some(t.session), now);
      accepted := accepted + [t];
      token := Some(next);
    }

    /** The bulk update behind a ban or a password change. */
    method RevokeSessions(u: Id, now: Time)
      requires Valid()
      modifies this
      ensures Valid() && Snapshot() == AuthStep(old(Snapshot()), RevokeUserCall(u), now)
      ensures forall i :: i in sessions && sessions[i].user == u ==> sessions[i].revokedAt.Some?
    {
      AuthStepKeeps(Snapshot(), RevokeUserCall(u), now);
      sessions := map i | i in sessions :: RevokeIf(sessions[i], sessions[i].user == u, now);
    }
  }
}
