/** Refreshes whose check and write are separate steps, as two requests to the
    server overlap. A token is accepted twice exactly when two requests had both
    passed their check before either wrote. */
module SessionSplit {
  import opened Basics
  import opened SessionModel

  /** How far a refresh request is, and in which steps it checked and wrote. */
  datatype Attempt =
    | Refused
    | Checked(token: Token, checkedAt: nat)
    | Wrote(token: Token, checkedAt: nat, wroteAt: nat)

  /** `writers` lists the requests behind `auth.accepted`. */
  datatype SplitWorld = SplitWorld(auth: AuthWorld, attempts: map<Id, Attempt>, writers: seq<Id>, steps: nat)

  const EmptySplit := SplitWorld(EmptyAuth, map[], [], 0)

  /** The session is read and found good, or the request fails. */
  function Check(w: SplitWorld, q: Id, t: Token, now: Time): SplitWorld {
    if q in w.attempts then w
    else w.(attempts := w.attempts[q := if Accepts(w.auth, t, now) then Checked(t, w.steps) else Refused])
  }

  /** The session row is overwritten whatever it holds by now. */
  function Write(w: SplitWorld, q: Id, now: Time): SplitWorld {
    if q !in w.attempts || !w.attempts[q].Checked? || w.attempts[q].token.session !in w.auth.sessions then w
    else
      var a := w.attempts[q];
      w.(auth := Rotate(w.auth, a.token, now),
         attempts := w.attempts[q := Wrote(a.token, a.checkedAt, w.steps)],
         writers := w.writers + [q])
  }

  datatype SplitCall =
    | CheckCall(request: Id, token: Token)
    | WriteCall(request: Id)
    | OtherCall(call: AuthCall)

  function SplitStep(w: SplitWorld, c: SplitCall, now: Time): SplitWorld {
    var w1 := match c
      case CheckCall(q, t) => Check(w, q, t, now)
      case WriteCall(q) => Write(w, q, now)
      case OtherCall(call) => if call.RefreshCall? then w else w.(auth := AuthStep(w.auth, call, now));
    w1.(steps := w.steps + 1)
  }

  type SplitHistory = seq<(Time, SplitCall)>

  function SplitRun(w: SplitWorld, h: SplitHistory): SplitWorld
    decreases |h|
  {
    if h == [] then w else SplitRun(SplitStep(w, h[0].1, h[0].0), h[1..])
  }

  /** A refresh that nobody interrupts is the atomic one. */
  lemma AtomicIsCheckThenWrite(w: SplitWorld, q: Id, t: Token, now: Time)
    requires q !in w.attempts
    ensures SplitStep(SplitStep(w, CheckCall(q, t), now), WriteCall(q), now).auth == Refresh(w.auth, t, now)
  {
  }

  // ----- the invariant -----

  predicate Passed(a: Attempt) {
    a.Checked? || a.Wrote?
  }

  ghost predicate SessionsOk(w: SplitWorld) {
    && (forall i :: i in w.auth.sessions ==> i < w.auth.nextSession && w.auth.sessions[i].jti < w.auth.nextJti)
    && (forall i, j :: i in w.auth.sessions && j in w.auth.sessions && w.auth.sessions[i].jti == w.auth.sessions[j].jti ==> i == j)
  }

  /** A token that passed a check is its session's current one or an older one, and
      an older one once it was written. */
  ghost predicate AttemptOk(w: SplitWorld, a: Attempt) {
    && (Passed(a) ==>
          && a.token.session in w.auth.sessions && w.auth.sessions[a.token.session].user == a.token.user
          && a.token.jti <= w.auth.sessions[a.token.session].jti && a.checkedAt < w.steps)
    && (a.Wrote? ==> a.token.jti < w.auth.sessions[a.token.session].jti && a.checkedAt < a.wroteAt < w.steps)
  }

  ghost predicate AttemptsOk(w: SplitWorld) {
    forall q :: q in w.attempts ==> AttemptOk(w, w.attempts[q])
  }

  /** No request passes its check for a token after that token was written. */
  ghost predicate ChecksFirst(w: SplitWorld) {
    forall p, q :: p in w.attempts && q in w.attempts && w.attempts[p].Wrote? && Passed(w.attempts[q])
                   && w.attempts[q].token == w.attempts[p].token
      ==> w.attempts[q].checkedAt < w.attempts[p].wroteAt
  }

  /** The accepted tokens are those of the requests that wrote, each once. */
  ghost predicate WritersOk(w: SplitWorld) {
    && |w.writers| == |w.auth.accepted|
    && (forall n :: 0 <= n < |w.writers| ==>
          w.writers[n] in w.attempts && w.attempts[w.writers[n]].Wrote?
          && w.attempts[w.writers[n]].token == w.auth.accepted[n])
    && (forall n, m :: 0 <= n < m < |w.writers| ==> w.writers[n] != w.writers[m])
    && (forall q :: q in w.attempts && w.attempts[q].Wrote? ==> q in w.writers)
  }

  ghost predicate SplitSound(w: SplitWorld) {
    SessionsOk(w) && AttemptsOk(w) && ChecksFirst(w) && WritersOk(w)
  }

  // ----- preservation -----

  lemma CheckKeeps(w: SplitWorld, q: Id, t: Token, now: Time)
    requires SplitSound(w)
    ensures SplitSound(SplitStep(w, CheckCall(q, t), now))
  {
    var w1 := SplitStep(w, CheckCall(q, t), now);
    forall x | x in w1.attempts
      ensures AttemptOk(w1, w1.attempts[x])
    {
      assert x in w.attempts ==> AttemptOk(w, w.attempts[x]);
    }
    forall x, y | x in w1.attempts && y in w1.attempts && w1.attempts[x].Wrote? && Passed(w1.attempts[y])
                  && w1.attempts[y].token == w1.attempts[x].token
      ensures w1.attempts[y].checkedAt < w1.attempts[x].wroteAt
    {
      assert x in w.attempts && AttemptOk(w, w.attempts[x]);
    }
  }

  lemma WriteSessions(w: SplitWorld, q: Id, now: Time)
    requires SessionsOk(w)
    ensures SessionsOk(SplitStep(w, WriteCall(q), now))
  {
  }

  lemma WriteAttempts(w: SplitWorld, q: Id, now: Time)
    requires SplitSound(w)
    ensures AttemptsOk(SplitStep(w, WriteCall(q), now)) && ChecksFirst(SplitStep(w, WriteCall(q), now))
  {
    var w1 := SplitStep(w, WriteCall(q), now);
    forall x | x in w1.attempts
      ensures AttemptOk(w1, w1.attempts[x])
    {
      assert AttemptOk(w, w.attempts[x]);
    }
    forall x, y | x in w1.attempts && y in w1.attempts && w1.attempts[x].Wrote? && Passed(w1.attempts[y])
                  && w1.attempts[y].token == w1.attempts[x].token
      ensures w1.attempts[y].checkedAt < w1.attempts[x].wroteAt
    {
      assert AttemptOk(w, w.attempts[x]) && AttemptOk(w, w.attempts[y]);
    }
  }

  lemma WriteWriters(w: SplitWorld, q: Id, now: Time)
    requires SplitSound(w)
    ensures WritersOk(SplitStep(w, WriteCall(q), now))
  {
    var w1 := SplitStep(w, WriteCall(q), now);
    if w1.writers != w.writers {
      var n1 := |w.writers|;
      assert q !in w.writers;
      forall n | 0 <= n < |w1.writers|
        ensures w1.writers[n] == (if n < n1 then w.writers[n] else q)
        ensures w1.auth.accepted[n] == (if n < n1 then w.auth.accepted[n] else w.attempts[q].token)
      {
      }
      assert w1.writers[n1] == q;
      forall x | x in w1.attempts && w1.attempts[x].Wrote?
        ensures x in w1.writers
      {
        assert x == q || x in w.writers;
      }
    }
  }

  lemma OtherKeeps(w: SplitWorld, c: AuthCall, now: Time)
    requires SplitSound(w)
    ensures SplitSound(SplitStep(w, OtherCall(c), now))
  {
    var w1 := SplitStep(w, OtherCall(c), now);
    forall x | x in w1.attempts
      ensures AttemptOk(w1, w1.attempts[x])
    {
      assert AttemptOk(w, w.attempts[x]);
    }
  }

  lemma SplitStepKeeps(w: SplitWorld, c: SplitCall, now: Time)
    requires SplitSound(w)
    ensures SplitSound(SplitStep(w, c, now))
  {
    match c
    case CheckCall(q, t) => CheckKeeps(w, q, t, now);
    case WriteCall(q) =>
      WriteSessions(w, q, now);
      WriteAttempts(w, q, now);
      WriteWriters(w, q, now);
    case OtherCall(call) => OtherKeeps(w, call, now);
  }

  lemma {:induction false} SplitRunKeeps(w: SplitWorld, h: SplitHistory)
    requires SplitSound(w)
    ensures SplitSound(SplitRun(w, h))
    decreases |h|
  {
    if h != [] {
      SplitStepKeeps(w, h[0].1, h[0].0);
      SplitRunKeeps(SplitStep(w, h[0].1, h[0].0), h[1..]);
    }
  }

  // ----- exactly when a token is accepted twice -----

  ghost predicate AcceptedTwice(w: SplitWorld, t: Token) {
    exists n, m :: 0 <= n < m < |w.auth.accepted| && w.auth.accepted[n] == t && w.auth.accepted[m] == t
  }

  /** Two requests for the token both passed their check before the first of their
      writes. */
  ghost predicate Overlapped(w: SplitWorld, t: Token, p: Id, q: Id) {
    && p != q && p in w.attempts && q in w.attempts && w.attempts[p].Wrote? && w.attempts[q].Wrote?
    && w.attempts[p].token == t && w.attempts[q].token == t
    && w.attempts[p].checkedAt < w.attempts[q].wroteAt && w.attempts[q].checkedAt < w.attempts[p].wroteAt
  }

  lemma TwiceIsOverlap(w: SplitWorld, t: Token)
    requires SplitSound(w)
    ensures AcceptedTwice(w, t) <==> exists p, q :: Overlapped(w, t, p, q)
  {
    if AcceptedTwice(w, t) {
      var n, m :| 0 <= n < m < |w.auth.accepted| && w.auth.accepted[n] == t && w.auth.accepted[m] == t;
      assert Overlapped(w, t, w.writers[n], w.writers[m]);
    }
    if p, q :| Overlapped(w, t, p, q) {
      var n :| 0 <= n < |w.writers| && w.writers[n] == p;
      var m :| 0 <= m < |w.writers| && w.writers[m] == q;
      assert w.auth.accepted[if n < m then n else m] == t && w.auth.accepted[if n < m then m else n] == t;
    }
  }

  /** Over every run: a token is accepted twice if and only if two requests for it
      had both passed their check before the first of them wrote. */
  lemma TwiceExactly(h: SplitHistory, t: Token)
    ensures var w := SplitRun(EmptySplit, h);
      AcceptedTwice(w, t) <==> exists p, q :: Overlapped(w, t, p, q)
  {
    SplitRunKeeps(EmptySplit, h);
    TwiceIsOverlap(SplitRun(EmptySplit, h), t);
  }

  // ----- what can still happen -----

  ghost predicate Pending(w: SplitWorld, t: Token, q: Id) {
    q in w.attempts && w.attempts[q].Checked? && w.attempts[q].token == t
  }

  function Uses(w: SplitWorld, t: Token): nat {
    multiset(w.auth.accepted)[t]
  }

  /** The token was accepted, so its session has moved on. */
  lemma AcceptedIsSpent(w: SplitWorld, t: Token, now: Time)
    requires SplitSound(w) && t in w.auth.accepted
    ensures Spent(w.auth, t) && !Accepts(w.auth, t, now)
  {
    var n :| 0 <= n < |w.auth.accepted| && w.auth.accepted[n] == t;
    var q := w.writers[n];
    assert q in w.attempts && w.attempts[q].Wrote? && w.attempts[q].token == t;
    assert AttemptOk(w, w.attempts[q]);
  }

  lemma StepUses(w: SplitWorld, c: SplitCall, now: Time, t: Token)
    requires SplitSound(w) && t in w.auth.accepted && forall q :: !Pending(w, t, q)
    ensures var w1 := SplitStep(w, c, now);
      t in w1.auth.accepted && Uses(w1, t) == Uses(w, t) && forall q :: !Pending(w1, t, q)
  {
    AcceptedIsSpent(w, t, now);
    var w1 := SplitStep(w, c, now);
    assert forall q :: Pending(w1, t, q) ==> Pending(w, t, q);
    if w1.auth.accepted != w.auth.accepted {
      assert !Pending(w, t, c.request) && w1.auth.accepted == w.auth.accepted + [w.attempts[c.request].token];
    }
  }

  lemma {:induction false} NoMoreUses(w: SplitWorld, h: SplitHistory, t: Token)
    requires SplitSound(w) && t in w.auth.accepted && forall q :: !Pending(w, t, q)
    ensures Uses(SplitRun(w, h), t) == Uses(w, t)
    decreases |h|
  {
    if h != [] {
      StepUses(w, h[0].1, h[0].0, t);
      SplitStepKeeps(w, h[0].1, h[0].0);
      NoMoreUses(SplitStep(w, h[0].1, h[0].0), h[1..], t);
    }
  }

  lemma OneWrite(w: SplitWorld, q: Id, t: Token, now: Time)
    requires SplitSound(w) && Pending(w, t, q)
    ensures SplitRun(w, [(now, WriteCall(q))]) == SplitStep(w, WriteCall(q), now)
    ensures SplitStep(w, WriteCall(q), now).auth.accepted == w.auth.accepted + [t]
    ensures forall p :: p != q && Pending(w, t, p) ==> Pending(SplitStep(w, WriteCall(q), now), t, p)
  {
    assert AttemptOk(w, w.attempts[q]);
    var h := [(now, WriteCall(q))];
    assert h[1..] == [];
    assert SplitRun(SplitStep(w, WriteCall(q), now), h[1..]) == SplitStep(w, WriteCall(q), now);
  }

  /** Once a token was accepted, some continuation accepts it again if and only if
      another request that passed its check in time has not written yet. */
  lemma SpentAgainExactly(w: SplitWorld, t: Token)
    requires SplitSound(w) && t in w.auth.accepted
    ensures (exists h :: Uses(SplitRun(w, h), t) > Uses(w, t)) <==> (exists q :: Pending(w, t, q))
  {
    if q :| Pending(w, t, q) {
      OneWrite(w, q, t, 0.0);
      assert Uses(SplitRun(w, [(0.0, WriteCall(q))]), t) > Uses(w, t);
    } else {
      forall h
        ensures Uses(SplitRun(w, h), t) == Uses(w, t)
      {
        NoMoreUses(w, h, t);
      }
    }
  }

  // ----- revocation -----

  /** How many tokens of a session are in the list. */
  function Rotations(tokens: seq<Token>, i: Id): nat {
    if tokens == [] then 0
    else Rotations(tokens[..|tokens| - 1], i) + if tokens[|tokens| - 1].session == i then 1 else 0
  }

  lemma OneMoreRotation(tokens: seq<Token>, t: Token, i: Id)
    ensures Rotations(tokens + [t], i) == Rotations(tokens, i) + if t.session == i then 1 else 0
  {
    assert (tokens + [t])[..|tokens|] == tokens;
  }

  ghost predicate PendingFor(w: SplitWorld, i: Id, q: Id) {
    q in w.attempts && w.attempts[q].Checked? && w.attempts[q].token.session == i
  }

  lemma StepRevoked(w: SplitWorld, c: SplitCall, now: Time, i: Id)
    requires SplitSound(w) && Revoked(w.auth, i) && forall q :: !PendingFor(w, i, q)
    ensures var w1 := SplitStep(w, c, now);
      Revoked(w1.auth, i) && Rotations(w1.auth.accepted, i) == Rotations(w.auth.accepted, i) && forall q :: !PendingFor(w1, i, q)
  {
    var w1 := SplitStep(w, c, now);
    assert forall q :: PendingFor(w1, i, q) ==> PendingFor(w, i, q);
    if w1.auth.accepted != w.auth.accepted {
      assert !PendingFor(w, i, c.request);
      OneMoreRotation(w.auth.accepted, w.attempts[c.request].token, i);
    }
  }

  lemma {:induction false} RevokedRests(w: SplitWorld, h: SplitHistory, i: Id)
    requires SplitSound(w) && Revoked(w.auth, i) && forall q :: !PendingFor(w, i, q)
    ensures Rotations(SplitRun(w, h).auth.accepted, i) == Rotations(w.auth.accepted, i)
    decreases |h|
  {
    if h != [] {
      StepRevoked(w, h[0].1, h[0].0, i);
      SplitStepKeeps(w, h[0].1, h[0].0);
      RevokedRests(SplitStep(w, h[0].1, h[0].0), h[1..], i);
    }
  }

  /** A revoked session rotates again along some continuation if and only if a
      request of it passed its check and has not written. */
  lemma RevokedRotatesExactly(w: SplitWorld, i: Id)
    requires SplitSound(w) && Revoked(w.auth, i)
    ensures (exists h :: Rotations(SplitRun(w, h).auth.accepted, i) > Rotations(w.auth.accepted, i))
      <==> (exists q :: PendingFor(w, i, q))
  {
    if q :| PendingFor(w, i, q) {
      OneWrite(w, q, w.attempts[q].token, 0.0);
      OneMoreRotation(w.auth.accepted, w.attempts[q].token, i);
      assert Rotations(SplitRun(w, [(0.0, WriteCall(q))]).auth.accepted, i) > Rotations(w.auth.accepted, i);
    } else {
      forall h
        ensures Rotations(SplitRun(w, h).auth.accepted, i) == Rotations(w.auth.accepted, i)
      {
        RevokedRests(w, h, i);
      }
    }
  }

  /** Two pending requests for one token both succeed, and the token handed to the
      first of them is dead at once. */
  lemma OverlapSpendsTwice(w: SplitWorld, t: Token, p: Id, q: Id, now: Time, later: Time)
    requires SplitSound(w) && p != q && Pending(w, t, p) && Pending(w, t, q)
    ensures var w1 := SplitStep(w, WriteCall(p), now);
      var w2 := SplitStep(w1, WriteCall(q), later);
      && w2.auth.accepted == w.auth.accepted + [t, t]
      && Accepts(w2.auth, Token(t.session, t.user, w1.auth.nextJti), later) == w2.auth.sessions[t.session].revokedAt.None?
      && !Accepts(w2.auth, Token(t.session, t.user, w.auth.nextJti), later)
  {
    OneWrite(w, p, t, now);
    var w1 := SplitStep(w, WriteCall(p), now);
    SplitStepKeeps(w, WriteCall(p), now);
    OneWrite(w1, q, t, later);
    assert AttemptOk(w, w.attempts[p]) && AttemptOk(w1, w1.attempts[q]);
    assert w.auth.accepted + [t] + [t] == w.auth.accepted + [t, t];
  }

  /** A login and two overlapping refreshes with its token: both are accepted. */
  lemma TwoRefreshesOverlap(w: SplitWorld)
    requires w == EmptySplit
    ensures var t := Token(1, 7, 0);
      var w1 := SplitStep(w, OtherCall(LoginCall(7)), 0.0);
      var w2 := SplitStep(SplitStep(w1, CheckCall(1, t), 1.0), CheckCall(2, t), 1.0);
      var w3 := SplitStep(SplitStep(w2, WriteCall(1), 2.0), WriteCall(2), 2.0);
      w3.auth.accepted == [t, t] && AcceptedTwice(w3, t)
  {
    var t := Token(1, 7, 0);
    var w1 := SplitStep(w, OtherCall(LoginCall(7)), 0.0);
    var w2 := SplitStep(SplitStep(w1, CheckCall(1, t), 1.0), CheckCall(2, t), 1.0);
    SplitStepKeeps(w, OtherCall(LoginCall(7)), 0.0);
    SplitStepKeeps(w1, CheckCall(1, t), 1.0);
    SplitStepKeeps(SplitStep(w1, CheckCall(1, t), 1.0), CheckCall(2, t), 1.0);
    assert Pending(w2, t, 1) && Pending(w2, t, 2) && w2.auth.accepted == [];
    OverlapSpendsTwice(w2, t, 1, 2, 2.0, 2.0);
    var w3 := SplitStep(SplitStep(w2, WriteCall(1), 2.0), WriteCall(2), 2.0);
    assert w3.auth.accepted[0] == t && w3.auth.accepted[1] == t;
  }
}
