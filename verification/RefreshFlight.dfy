/** The mobile client's single-flight refresh against a server whose check and
    rotation are separate steps. Tokens of the session are numbered; a request
    abandoned by the client may still run to its end on the server. */
module RefreshFlight {
  import opened Basics

  type Token = nat

  /** The shared refresh future. `Posted` and `Checked` are where the server is
      with the request; `Answered` waits for the client to read the response. */
  datatype Flight =
    | Grounded
    | Reading
    | Posted(token: Token)
    | Checked(token: Token)
    | Answered(result: Option<Token>)

  /** An API call: `auth` is the token pair it was last sent with, or failed with,
      `sends` how often it was sent. */
  datatype CallPhase =
    | Sent(auth: Token)
    | Unauthorized(auth: Token)
    | Looked(auth: Token, seen: Option<Token>)
    | Waiting(auth: Token)
    | Retrying(auth: Token, newer: Token)
    | Finished(ok: bool)

  datatype Call = Call(phase: CallPhase, sends: nat)

  /** A request the client gave up on. */
  datatype Orphan = Orphan(token: Token, checked: bool)

  datatype FlightWorld = FlightWorld(
    current: Token,
    revoked: bool,
    next: Token,
    accepted: seq<Token>,
    posts: seq<Token>,
    orphan: Option<Orphan>,
    store: Option<Token>,
    flight: Flight,
    calls: map<Id, Call>)

  /** Just logged in: the client holds the server's first token. */
  const LoggedIn := FlightWorld(0, false, 1, [], [], None, Some(0), Grounded, map[])

  // ----- the client -----

  function Send(w: FlightWorld, q: Id): FlightWorld {
    if q in w.calls || w.store.None? then w
    else w.(calls := w.calls[q := Call(Sent(w.store.value), 1)])
  }

  datatype Answer = Good | Denied | Failed

  /** The server's answer; a second 401 is passed on, like any other error. */
  function Reply(w: FlightWorld, q: Id, answer: Answer): FlightWorld {
    if q !in w.calls || !w.calls[q].phase.Sent? then w
    else
      var c := w.calls[q];
      w.(calls := w.calls[q := c.(phase :=
        if answer == Denied && c.sends < 2 then Unauthorized(c.phase.auth) else Finished(answer == Good))])
  }

  function Look(w: FlightWorld, q: Id): FlightWorld {
    if q !in w.calls || !w.calls[q].phase.Unauthorized? then w
    else w.(calls := w.calls[q := w.calls[q].(phase := Looked(w.calls[q].phase.auth, w.store))])
  }

  /** Use a newer token if one was seen, else join the refresh, starting it if needed. */
  function Decide(w: FlightWorld, q: Id): FlightWorld {
    if q !in w.calls || !w.calls[q].phase.Looked? then w
    else
      var p := w.calls[q].phase;
      if p.seen.None? || p.seen.value == p.auth then
        w.(calls := w.calls[q := w.calls[q].(phase := Waiting(p.auth))], flight := if w.flight.Grounded? then Reading else w.flight)
      else w.(calls := w.calls[q := w.calls[q].(phase := Retrying(p.auth, p.seen.value))])
  }

  function Resend(w: FlightWorld, q: Id): FlightWorld {
    if q !in w.calls || !w.calls[q].phase.Retrying? then w
    else w.(calls := w.calls[q := Call(Sent(w.calls[q].phase.newer), w.calls[q].sends + 1)])
  }

  /** The future completes: every call waiting on it gets the result. */
  function Complete(w: FlightWorld, result: Option<Token>): FlightWorld {
    w.(store := result, flight := Grounded,
       calls := map q | q in w.calls ::
         if w.calls[q].phase.Waiting?
         then w.calls[q].(phase := Resumed(w.calls[q].phase.auth, result))
         else w.calls[q])
  }

  /** How a call that waited goes on. */
  function Resumed(auth: Token, result: Option<Token>): CallPhase {
    if result.Some? then Retrying(auth, result.value) else Finished(false)
  }

  function ReadToken(w: FlightWorld): FlightWorld {
    if !w.flight.Reading? then w
    else if w.store.None? then Complete(w, None)
    else w.(flight := Posted(w.store.value), posts := w.posts + [w.store.value])
  }

  function Land(w: FlightWorld): FlightWorld {
    if w.flight.Answered? then Complete(w, w.flight.result) else w
  }

  /** Timeout or lost connection: the client clears its store; the request may live on. */
  function Lose(w: FlightWorld): FlightWorld {
    match w.flight
    case Posted(t) => Complete(w, None).(orphan := Some(Orphan(t, false)))
    case Checked(t) => Complete(w, None).(orphan := Some(Orphan(t, true)))
    case Answered(_) => Complete(w, None)
    case _ => w
  }

  function SignOut(w: FlightWorld): FlightWorld {
    w.(store := None)
  }

  // ----- the server -----

  predicate Valid(w: FlightWorld, t: Token) {
    !w.revoked && t == w.current
  }

  function Rotate(w: FlightWorld, t: Token): FlightWorld {
    w.(current := w.next, next := w.next + 1, accepted := w.accepted + [t])
  }

  function ServerCheck(w: FlightWorld): FlightWorld {
    if !w.flight.Posted? then w
    else w.(flight := if Valid(w, w.flight.token) then Checked(w.flight.token) else Answered(None))
  }

  function ServerWrite(w: FlightWorld): FlightWorld {
    if !w.flight.Checked? then w
    else Rotate(w, w.flight.token).(flight := Answered(Some(w.next)))
  }

  function OrphanStep(w: FlightWorld): FlightWorld {
    if w.orphan.None? then w
    else if w.orphan.value.checked then Rotate(w, w.orphan.value.token).(orphan := None)
    else w.(orphan := if Valid(w, w.orphan.value.token) then Some(Orphan(w.orphan.value.token, true)) else None)
  }

  function Revoke(w: FlightWorld): FlightWorld {
    w.(revoked := true)
  }

  // ----- runs -----

  datatype Event =
    | SendEvent(q: Id)
    | ReplyEvent(q: Id, answer: Answer)
    | LookEvent(q: Id)
    | DecideEvent(q: Id)
    | ResendEvent(q: Id)
    | ReadTokenEvent
    | LandEvent
    | LoseEvent
    | SignOutEvent
    | CheckEvent
    | WriteEvent
    | OrphanEvent
    | RevokeEvent

  function Step(w: FlightWorld, e: Event): FlightWorld {
    match e
    case SendEvent(q) => Send(w, q)
    case ReplyEvent(q, answer) => Reply(w, q, answer)
    case LookEvent(q) => Look(w, q)
    case DecideEvent(q) => Decide(w, q)
    case ResendEvent(q) => Resend(w, q)
    case ReadTokenEvent => ReadToken(w)
    case LandEvent => Land(w)
    case LoseEvent => Lose(w)
    case SignOutEvent => SignOut(w)
    case CheckEvent => ServerCheck(w)
    case WriteEvent => ServerWrite(w)
    case OrphanEvent => OrphanStep(w)
    case RevokeEvent => Revoke(w)
  }

  function Run(w: FlightWorld, es: seq<Event>): FlightWorld
    decreases |es|
  {
    if es == [] then w else Run(Step(w, es[0]), es[1..])
  }

  // ----- the invariant -----

  ghost predicate Rising(s: seq<Token>) {
    forall i, j :: 0 <= i < j < |s| ==> s[i] < s[j]
  }

  ghost predicate Below(s: seq<Token>, t: Token) {
    forall i :: 0 <= i < |s| ==> s[i] < t
  }

  /** Where the client stands with the server's current token. */
  ghost predicate InStep(w: FlightWorld) {
    match w.flight
    case Grounded => w.store.Some? ==> w.store.value == w.current && Below(w.posts, w.current)
    case Reading => w.store.Some? ==> w.store.value == w.current && Below(w.posts, w.current)
    case Posted(t) => t == w.current && (w.store.Some? ==> w.store.value == t)
    case Checked(t) => t == w.current && (w.store.Some? ==> w.store.value == t)
    case Answered(Some(n)) => n == w.current && Below(w.posts, n) && (w.store.Some? ==> w.store.value < n)
    case Answered(None) => w.revoked && (w.store.Some? ==> w.store.value == w.current)
  }

  /** An abandoned request is the only one left: the client has no token any more. */
  ghost predicate Alone(w: FlightWorld) {
    w.orphan.Some? ==>
      w.store.None? && (w.flight.Grounded? || w.flight.Reading?)
      && (w.orphan.value.checked ==> w.orphan.value.token == w.current)
  }

  /** No token in use is newer than the server's current one, none but a retry's is
      as new as an answer on its way, and a retry's is newer than the one that failed. */
  ghost predicate TokensOk(w: FlightWorld, p: CallPhase) {
    match p
    case Sent(auth) => Known(w, auth)
    case Unauthorized(auth) => Known(w, auth)
    case Looked(auth, seen) => Known(w, auth) && (seen.Some? ==> auth <= seen.value && Known(w, seen.value))
    case Waiting(auth) => Known(w, auth)
    case Retrying(auth, newer) => auth < newer && Known(w, newer)
    case Finished(_) => true
  }

  ghost predicate Known(w: FlightWorld, t: Token) {
    && t <= w.current
    && (w.store.Some? ==> t <= w.store.value)
    && (w.flight.Answered? && w.flight.result.Some? ==> t < w.current)
  }

  ghost predicate CallOk(w: FlightWorld, c: Call) {
    && 1 <= c.sends <= 2 && TokensOk(w, c.phase)
    && (c.phase.Waiting? ==> !w.flight.Grounded?)
    && (c.sends == 2 ==> c.phase.Sent? || c.phase.Finished?)
  }

  ghost predicate FlightSound(w: FlightWorld) {
    && w.current < w.next
    && Rising(w.accepted) && Below(w.accepted, w.current)
    && Rising(w.posts) && Below(w.posts, w.current + 1)
    && InStep(w) && Alone(w)
    && (forall q :: q in w.calls ==> CallOk(w, w.calls[q]))
  }

  lemma CompleteKeeps(w: FlightWorld, result: Option<Token>)
    requires FlightSound(w) && (result.Some? ==> w.flight == Answered(result))
    ensures FlightSound(Complete(w, result))
  {
    var w1 := Complete(w, result);
    forall q | q in w1.calls
      ensures CallOk(w1, w1.calls[q])
    {
      assert CallOk(w, w.calls[q]);
    }
  }

  lemma RotateKeeps(w: FlightWorld)
    requires w.current < w.next && Rising(w.accepted) && Below(w.accepted, w.current) && Below(w.posts, w.current + 1)
    ensures var w1 := Rotate(w, w.current);
      w1.current < w1.next && Rising(w1.accepted) && Below(w1.accepted, w1.current) && Below(w1.posts, w1.current)
  {
  }

  lemma ClientStepKeeps(w: FlightWorld, e: Event)
    requires FlightSound(w)
    requires e.SendEvent? || e.ReplyEvent? || e.LookEvent? || e.DecideEvent? || e.ResendEvent?
    ensures FlightSound(Step(w, e))
  {
    var w1 := Step(w, e);
    forall q | q in w1.calls
      ensures CallOk(w1, w1.calls[q])
    {
      ClientCallKeeps(w, e, q);
    }
  }

  lemma ClientCallKeeps(w: FlightWorld, e: Event, q: Id)
    requires FlightSound(w) && q in Step(w, e).calls
    requires e.SendEvent? || e.ReplyEvent? || e.LookEvent? || e.DecideEvent? || e.ResendEvent?
    ensures CallOk(Step(w, e), Step(w, e).calls[q])
  {
    if e.SendEvent? {
      SendKeeps(w, e.q, q);
    } else if e.DecideEvent? {
      DecideKeeps(w, e.q, q);
    } else if e.LookEvent? {
      LookKeeps(w, e.q, q);
    } else if e.ReplyEvent? {
      ReplyKeeps(w, e.q, e.answer, q);
    } else {
      ResendKeeps(w, e.q, q);
    }
  }

  lemma LookKeeps(w: FlightWorld, x: Id, q: Id)
    requires FlightSound(w) && q in Look(w, x).calls
    ensures CallOk(Look(w, x), Look(w, x).calls[q])
  {
    assert q in w.calls && CallOk(w, w.calls[q]);
  }

  lemma ReplyKeeps(w: FlightWorld, x: Id, answer: Answer, q: Id)
    requires FlightSound(w) && q in Reply(w, x, answer).calls
    ensures CallOk(Reply(w, x, answer), Reply(w, x, answer).calls[q])
  {
    assert q in w.calls && CallOk(w, w.calls[q]);
  }

  lemma ResendKeeps(w: FlightWorld, x: Id, q: Id)
    requires FlightSound(w) && q in Resend(w, x).calls
    ensures CallOk(Resend(w, x), Resend(w, x).calls[q])
  {
    assert q in w.calls && CallOk(w, w.calls[q]);
  }

  lemma SendKeeps(w: FlightWorld, x: Id, q: Id)
    requires FlightSound(w) && q in Send(w, x).calls
    ensures CallOk(Send(w, x), Send(w, x).calls[q])
  {
    assert q in w.calls ==> CallOk(w, w.calls[q]);
  }

  lemma DecideKeeps(w: FlightWorld, x: Id, q: Id)
    requires FlightSound(w) && q in Decide(w, x).calls
    ensures CallOk(Decide(w, x), Decide(w, x).calls[q])
  {
    assert q in w.calls && CallOk(w, w.calls[q]);
  }

  lemma FlightStepKeeps(w: FlightWorld, e: Event)
    requires FlightSound(w)
    requires e.ReadTokenEvent? || e.LandEvent? || e.LoseEvent? || e.SignOutEvent?
    ensures FlightSound(Step(w, e))
  {
    assert forall q :: q in w.calls ==> CallOk(w, w.calls[q]);
    match e
    case ReadTokenEvent =>
      if w.flight.Reading? && w.store.None? {
        CompleteKeeps(w, None);
      }
    case LandEvent =>
      if w.flight.Answered? {
        CompleteKeeps(w, w.flight.result);
      }
    case LoseEvent => CompleteKeeps(w, None);
    case SignOutEvent =>
  }

  lemma ServerStepKeeps(w: FlightWorld, e: Event)
    requires FlightSound(w) && (e.CheckEvent? || e.WriteEvent? || e.OrphanEvent? || e.RevokeEvent?)
    ensures FlightSound(Step(w, e))
  {
    assert forall q :: q in w.calls ==> CallOk(w, w.calls[q]);
    RotateKeeps(w);
  }

  lemma StepKeeps(w: FlightWorld, e: Event)
    requires FlightSound(w)
    ensures FlightSound(Step(w, e))
  {
    if e.SendEvent? || e.ReplyEvent? || e.LookEvent? || e.DecideEvent? || e.ResendEvent? {
      ClientStepKeeps(w, e);
    } else if e.CheckEvent? || e.WriteEvent? || e.OrphanEvent? || e.RevokeEvent? {
      ServerStepKeeps(w, e);
    } else {
      FlightStepKeeps(w, e);
    }
  }

  lemma {:induction false} RunKeeps(w: FlightWorld, es: seq<Event>)
    requires FlightSound(w)
    ensures FlightSound(Run(w, es))
    decreases |es|
  {
    if es != [] {
      StepKeeps(w, es[0]);
      RunKeeps(Step(w, es[0]), es[1..]);
    }
  }

  /** In every run after a login, even with a server that checks and writes in
      separate steps and with abandoned requests: no token is accepted twice, none
      is even posted twice, no call is sent more than twice, none is left waiting
      without a refresh in flight, and with no refresh in flight the stored token
      is the server's current one or absent. */
  lemma SingleFlight(es: seq<Event>)
    ensures var w := Run(LoggedIn, es);
      && (forall i, j :: 0 <= i < j < |w.accepted| ==> w.accepted[i] != w.accepted[j])
      && (forall i, j :: 0 <= i < j < |w.posts| ==> w.posts[i] != w.posts[j])
      && (forall q :: q in w.calls ==> w.calls[q].sends <= 2)
      && (w.flight.Grounded? ==>
            (w.store.None? || w.store == Some(w.current)) && forall q :: q in w.calls ==> !w.calls[q].phase.Waiting?)
  {
    RunKeeps(LoggedIn, es);
    var w := Run(LoggedIn, es);
    assert forall q :: q in w.calls ==> CallOk(w, w.calls[q]);
  }

  // ----- what the refresh is for -----

  /** When the answer lands, every call that waited goes on with the new token, or
      fails if there is none; the store holds the answer, and no other call moves. */
  lemma LandingResumes(w: FlightWorld, q: Id)
    requires w.flight.Answered? && q in w.calls
    ensures var w1, result := Land(w), w.flight.result;
      && w1.store == result && w1.flight == Grounded && q in w1.calls && w1.calls[q].sends == w.calls[q].sends
      && w1.calls[q].phase
         == (match w.calls[q].phase
             case Waiting(auth) => if result.Some? then Retrying(auth, result.value) else Finished(false)
             case p => p)
  {
  }

  /** A lost request fails every call that waited, and clears the store. */
  lemma LossFailsTheWaiting(w: FlightWorld, q: Id)
    requires (w.flight.Posted? || w.flight.Checked? || w.flight.Answered?) && q in w.calls
    ensures var w1 := Lose(w);
      && w1.store == None && w1.flight == Grounded && q in w1.calls
      && w1.calls[q].phase == (if w.calls[q].phase.Waiting? then Finished(false) else w.calls[q].phase)
      && w1.orphan == (match w.flight
                       case Posted(t) => Some(Orphan(t, false))
                       case Checked(t) => Some(Orphan(t, true))
                       case _ => w.orphan)
  {
  }

  /** After a sign-out the client sends nothing, and a refresh it starts ends without
      a post and with every waiting call failed. */
  lemma SignOutOutcome(w: FlightWorld, q: Id, x: Id)
    ensures var w1 := SignOut(w);
      && w1.store.None? && w1.calls == w.calls && w1.flight == w.flight && Send(w1, q) == w1
      && (w.flight.Reading? ==>
            var w2 := ReadToken(w1);
            w2.posts == w.posts && w2.flight == Grounded
            && (x in w.calls && w.calls[x].phase.Waiting? ==> x in w2.calls && w2.calls[x].phase == Finished(false)))
  {
  }

  /** A revoked session answers no post. */
  lemma RevokeOutcome(w: FlightWorld)
    requires w.flight.Posted?
    ensures var w1 := ServerCheck(Revoke(w));
      w1.flight == Answered(None) && w1.accepted == w.accepted && w1.current == w.current && Land(w1).store.None?
  {
  }

  /** A request the client gave up on may still rotate the session, out of reach of
      the client: it was the current token's, and the session was not revoked when
      it was checked. */
  lemma OrphanOutcome(w: FlightWorld)
    requires w.orphan.Some?
    ensures var t, w1 := w.orphan.value.token, OrphanStep(w);
      && w1.store == w.store && w1.calls == w.calls && w1.flight == w.flight
      && (if w.orphan.value.checked then w1.orphan.None? && w1.accepted == w.accepted + [t] && w1.current == w.next
          else w1.accepted == w.accepted && w1.current == w.current
               && w1.orphan == if !w.revoked && t == w.current then Some(Orphan(t, true)) else None)
  {
  }

  /** Over every run: a call about to be resent was sent once and carries a token
      newer than the one it failed with, and none newer than the server's. */
  lemma RetriesAreNewer(es: seq<Event>, q: Id)
    ensures var w := Run(LoggedIn, es);
      q in w.calls && w.calls[q].phase.Retrying? ==>
        && w.calls[q].phase.auth < w.calls[q].phase.newer <= w.current && w.calls[q].sends == 1
        && var w1 := Resend(w, q); w1.calls[q] == Call(Sent(w.calls[q].phase.newer), 2)
  {
    RunKeeps(LoggedIn, es);
    var w := Run(LoggedIn, es);
    assert q in w.calls ==> CallOk(w, w.calls[q]);
  }

  /** A call that is denied once, with nobody else refreshing, is answered in the
      end: it joins a refresh, is resent with the new token, and the client keeps
      that token. If the session is revoked it fails and the store is empty. */
  lemma DeniedJoins(w: FlightWorld, q: Id)
    requires FlightSound(w) && w.flight.Grounded? && w.store.Some? && q !in w.calls
    ensures var w1 := Run(w, [SendEvent(q), ReplyEvent(q, Denied), LookEvent(q), DecideEvent(q)]);
      w1 == w.(calls := w.calls[q := Call(Waiting(w.current), 1)], flight := Reading)
  {
    var a := Send(w, q);
    var b := Reply(a, q, Denied);
    var c := Look(b, q);
    FourSteps(w, SendEvent(q), ReplyEvent(q, Denied), LookEvent(q), DecideEvent(q));
    assert c.calls == w.calls[q := Call(Looked(w.current, Some(w.current)), 1)];
    assert Decide(c, q).calls == w.calls[q := Call(Waiting(w.current), 1)];
  }

  lemma RefreshLands(w: FlightWorld, q: Id)
    requires w.flight == Reading && w.store == Some(w.current) && q in w.calls && w.calls[q] == Call(Waiting(w.current), 1)
    ensures var w1 := Run(w, [ReadTokenEvent, CheckEvent, WriteEvent, LandEvent]);
      && q in w1.calls && w1.posts == w.posts + [w.current] && w1.flight == Grounded
      && (if w.revoked then w1.store.None? && w1.calls[q].phase == Finished(false) && w1.accepted == w.accepted
          else
            && w1.store == Some(w.next) && w1.current == w.next && w1.accepted == w.accepted + [w.current]
            && w1.calls[q] == Call(Retrying(w.current, w.next), 1))
  {
    FourSteps(w, ReadTokenEvent, CheckEvent, WriteEvent, LandEvent);
    var w2 := ServerWrite(ServerCheck(ReadToken(w)));
    assert w2.calls == w.calls;
    LandingResumes(w2, q);
  }

  /** A call that is denied once, with nobody else refreshing, is answered in the
      end: it joins a refresh, is resent with the new token, and the client keeps
      that token. If the session is revoked it fails and the store is empty. */
  lemma RefreshRecovers(w: FlightWorld, q: Id)
    requires FlightSound(w) && w.flight.Grounded? && w.store.Some? && q !in w.calls
    ensures var w1 := Run(w, [SendEvent(q), ReplyEvent(q, Denied), LookEvent(q), DecideEvent(q)]);
      var w2 := Run(w1, [ReadTokenEvent, CheckEvent, WriteEvent, LandEvent]);
      var w3 := Run(w2, [ResendEvent(q), ReplyEvent(q, Good)]);
      q in w2.calls && q in w3.calls
      && if w.revoked then w2.store.None? && w2.calls[q].phase == Finished(false) && w2.accepted == w.accepted
         else
           && w2.store == Some(w.next) && w2.current == w.next && w2.accepted == w.accepted + [w.current]
           && w2.calls[q] == Call(Retrying(w.current, w.next), 1) && w3.calls[q] == Call(Finished(true), 2)
  {
    DeniedJoins(w, q);
    var w1 := Run(w, [SendEvent(q), ReplyEvent(q, Denied), LookEvent(q), DecideEvent(q)]);
    RefreshLands(w1, q);
    var w2 := Run(w1, [ReadTokenEvent, CheckEvent, WriteEvent, LandEvent]);
    TwoSteps(w2, ResendEvent(q), ReplyEvent(q, Good));
  }

  lemma TwoSteps(w: FlightWorld, a: Event, b: Event)
    ensures Run(w, [a, b]) == Step(Step(w, a), b)
  {
    assert [a, b][1..] == [b] && [b][1..] == [];
    assert Run(Step(w, a), [b]) == Run(Step(Step(w, a), b), []);
  }

  lemma FourSteps(w: FlightWorld, a: Event, b: Event, c: Event, d: Event)
    ensures Run(w, [a, b, c, d]) == Step(Step(Step(Step(w, a), b), c), d)
  {
    assert [a, b, c, d][1..] == [b, c, d] && [b, c, d][1..] == [c, d];
    assert Run(Step(w, a), [b, c, d]) == Run(Step(Step(w, a), b), [c, d]);
    TwoSteps(Step(Step(w, a), b), c, d);
  }

  // ----- revocation -----

  /** A request that passed its check still rotates. */
  ghost predicate PassedCheck(w: FlightWorld) {
    w.flight.Checked? || (w.orphan.Some? && w.orphan.value.checked)
  }

  lemma StepRevoked(w: FlightWorld, e: Event)
    requires FlightSound(w) && w.revoked
    ensures Step(w, e).revoked
    ensures |Step(w, e).accepted| <= |w.accepted| + if PassedCheck(w) then 1 else 0
    ensures PassedCheck(Step(w, e)) ==> PassedCheck(w) && Step(w, e).accepted == w.accepted
    ensures !PassedCheck(w) ==> Step(w, e).accepted == w.accepted
  {
  }

  /** After a revocation at most one more rotation happens, and only for a request
      that had passed its check before. */
  lemma {:induction false} RevokedEnds(w: FlightWorld, es: seq<Event>)
    requires FlightSound(w) && w.revoked
    ensures |Run(w, es).accepted| <= |w.accepted| + if PassedCheck(w) then 1 else 0
    ensures !PassedCheck(w) ==> Run(w, es).accepted == w.accepted && !PassedCheck(Run(w, es))
    decreases |es|
  {
    if es != [] {
      StepRevoked(w, es[0]);
      StepKeeps(w, es[0]);
      RevokedEnds(Step(w, es[0]), es[1..]);
    }
  }

  // ----- the interceptor's tables -----

  class ApiClient {
    var store: Option<Token>
    var flight: Flight
    var calls: map<Id, Call>
    ghost var server: FlightWorld

    /** The whole system: the server's part with the client's tables. */
    ghost function Snapshot(): FlightWorld
      reads this
    {
      server.(store := store, flight := flight, calls := calls)
    }

    ghost predicate Consistent()
      reads this
    {
      FlightSound(Snapshot())
    }

    constructor ()
      ensures Consistent() && Snapshot() == LoggedIn
    {
      store, flight, calls, server := Some(0), Grounded, map[], LoggedIn;
    }

    /** `_handleUnauthorized` after its store read: `seen` is what the read gave. */
    method HandleUnauthorized(q: Id) returns (retryWith: Option<Token>)
      requires Consistent() && q in calls && calls[q].phase.Looked?
      modifies this`flight, this`calls
      ensures Consistent() && Snapshot() == Step(old(Snapshot()), DecideEvent(q))
      ensures var failed, seen := old(calls[q].phase.auth), old(calls[q].phase.seen);
        && retryWith == (if seen.Some? && seen.value != failed then seen else None)
        && q in calls && calls[q].sends == old(calls[q].sends)
        && calls[q].phase == (if retryWith.Some? then Retrying(failed, retryWith.value) else Waiting(failed))
        && (retryWith.None? ==> !flight.Grounded?)
    {
      StepKeeps(Snapshot(), DecideEvent(q));
      var failed, seen := calls[q].phase.auth, calls[q].phase.seen;
      retryWith := None;
      if seen.None? || seen.value == failed {
        RefreshAccessTokenOnce();
        calls := calls[q := calls[q].(phase := Waiting(failed))];
      } else {
        calls := calls[q := calls[q].(phase := Retrying(failed, seen.value))];
        retryWith := seen;
      }
    }

    /** Joins the refresh in flight or starts one. */
    method RefreshAccessTokenOnce()
      modifies this`flight
      ensures flight == if old(flight).Grounded? then Reading else old(flight)
    {
      if flight == Grounded {
        flight := Reading;
      }
    }

    /** The end of `_performTokenRefresh`: the store is saved or cleared, the
        future is dropped and everyone waiting on it resumes. */
    method FinishRefresh()
      requires Consistent() && flight.Answered?
      modifies this`store, this`flight, this`calls
      ensures Consistent() && Snapshot() == Step(old(Snapshot()), LandEvent)
      ensures flight == Grounded && store == old(flight).result && calls.Keys == old(calls).Keys
      ensures forall q :: q in calls ==>
        if !old(calls)[q].phase.Waiting? then calls[q] == old(calls)[q]
        else if store.Some? then calls[q].phase == Retrying(old(calls)[q].phase.auth, store.value)
        else calls[q].phase == Finished(false)
    {
      StepKeeps(Snapshot(), LandEvent);
      ghost var w := Snapshot();
      store := flight.result;
      flight := Grounded;
      ResumeCalls(store);
      assert Snapshot() == Step(w, LandEvent);
    }

    method ResumeCalls(result: Option<Token>)
      modifies this`calls
      ensures calls == Complete(old(Snapshot()), result).calls
    {
      var todo := set q | q in calls && calls[q].phase.Waiting?;
      ghost var waiting := todo;
      while todo != {}
        invariant todo <= waiting
        invariant calls == map q | q in old(calls) ::
          if q in waiting && q !in todo then old(calls)[q].(phase := Resumed(old(calls)[q].phase.auth, result)) else old(calls)[q]
        decreases todo
      {
        Inhabited(todo);
        var q :| q in todo;
        calls := calls[q := calls[q].(phase :=
          if result.Some? then Retrying(calls[q].phase.auth, result.value) else Finished(false))];
        todo := todo - {q};
      }
    }
  }
}
