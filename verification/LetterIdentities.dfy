/** The letter machine and the identity machine side by side: what the first does
    to authors and salvagers is what the second takes for granted, so a letter's
    scope holds at most its author and its one salvager over every letter history. */
module LetterIdentities {
  import opened Basics
  import L = LetterModel
  import LI = LetterInvariant
  import opened IdentityModel
  import opened IdentityProofs

  /** A letter as the identities see it. */
  function Rows(w: L.LetterWorld): map<Id, LetterRow> {
    map id | id in w.letters :: LetterRow(w.letters[id].author, w.letters[id].salvagedBy)
  }

  ghost predicate Matches(w: L.LetterWorld, iw: IdentityWorld) {
    iw.letters == Rows(w) && iw.nextLetter == w.nextLetter
  }

  /** What the identity machine does for a call of the letter machine. */
  function Image(w: L.LetterWorld, c: L.LetterCall, d: Draws, now: Time): seq<IdentityCall> {
    if c.CreateCall? && L.Accepted(w, c.draft, now) then [NewLetterCall(c.draft.author)]
    else if c.ClaimCall? && L.Wins(w, c.u, c.id, c.limit, c.drawn, now) then [SalvageCall(c.id, c.u, d)]
    else []
  }

  /** The flag of a claim tells whether its random draws were enough. */
  ghost predicate FlagTrue(iw: IdentityWorld, c: L.LetterCall, d: Draws) {
    c.ClaimCall? && c.id in iw.letters && c.drawn ==>
      EnsureBoth(iw, LetterScope(c.id), iw.letters[c.id].author, c.u, d).Some?
  }

  lemma OneCall(iw: IdentityWorld, c: IdentityCall)
    ensures IdentityRun(iw, [c]) == IdentityStep(iw, c)
  {
    assert [c][1..] == [];
    assert IdentityRun(IdentityStep(iw, c), []) == IdentityStep(iw, c);
  }

  lemma EnsureLetters(iw: IdentityWorld, rows: map<Id, LetterRow>, s: Scope, u: Id, v: Id, d: Draws)
    ensures EnsureBoth(iw.(letters := rows), s, u, v, d).Some? <==> EnsureBoth(iw, s, u, v, d).Some?
    ensures EnsureBoth(iw.(letters := rows), s, u, v, d).Some? ==>
      var w1 := EnsureBoth(iw.(letters := rows), s, u, v, d).value;
      w1.letters == rows && w1.nextLetter == iw.nextLetter
  {
    assert Used(iw.(letters := rows), s) == Used(iw, s);
    var a, b := EnsureOne(iw, s, u, d.first), EnsureOne(iw.(letters := rows), s, u, d.first);
    if a.Some? {
      assert b.Some? && b.value.ids == a.value.ids;
      assert Used(b.value, s) == Used(a.value, s);
    }
  }

  lemma ClaimMatches(w: L.LetterWorld, iw: IdentityWorld, c: L.LetterCall, d: Draws, now: Time)
    requires LI.LettersSound(w) && Matches(w, iw) && FlagTrue(iw, c, d)
    requires c.ClaimCall? && L.Wins(w, c.u, c.id, c.limit, c.drawn, now)
    ensures Matches(L.LetterStep(w, c, now), IdentityStep(iw, SalvageCall(c.id, c.u, d)))
  {
    assert LI.LetterOk(w.letters[c.id]);
    var rows := iw.letters[c.id := iw.letters[c.id].(salvager := Some(c.u))];
    EnsureLetters(iw, rows, LetterScope(c.id), iw.letters[c.id].author, c.u, d);
    assert Rows(L.LetterStep(w, c, now)) == rows;
  }

  lemma CreateMatches(w: L.LetterWorld, iw: IdentityWorld, c: L.LetterCall, now: Time)
    requires Matches(w, iw) && c.CreateCall? && L.Accepted(w, c.draft, now)
    ensures Matches(L.LetterStep(w, c, now), IdentityStep(iw, NewLetterCall(c.draft.author)))
  {
    assert Rows(L.LetterStep(w, c, now)) == iw.letters[w.nextLetter := LetterRow(c.draft.author, None)];
  }

  lemma {:induction false} ReleaseRows(w: L.LetterWorld, batch: seq<Id>, now: Time)
    ensures Rows(L.ReleaseAll(w, batch, now)) == Rows(w) && L.ReleaseAll(w, batch, now).nextLetter == w.nextLetter
  {
    if batch != [] {
      ReleaseRows(w, batch[..|batch| - 1], now);
      var w1 := L.ReleaseAll(w, batch[..|batch| - 1], now);
      assert Rows(L.ReleaseOne(w1, batch[|batch| - 1], now)) == Rows(w1);
    }
  }

  /** No other call touches an author or a salvager. */
  lemma OthersMatch(w: L.LetterWorld, c: L.LetterCall, d: Draws, now: Time)
    requires Image(w, c, d, now) == []
    ensures Rows(L.LetterStep(w, c, now)) == Rows(w) && L.LetterStep(w, c, now).nextLetter == w.nextLetter
  {
    match c
    case ReleaseCall(batch) => ReleaseRows(w, batch, now);
    case ApproveCall(id, releaseNow) => assert Rows(L.Approve(w, id, releaseNow, now)) == Rows(w);
    case RejectCall(id) => assert Rows(L.Reject(w, id, now)) == Rows(w);
    case ModerateCall(id) => assert Rows(L.Moderate(w, id, now)) == Rows(w);
    case ExpireCall => assert Rows(L.Expire(w, now)) == Rows(w);
    case _ => assert L.LetterStep(w, c, now).letters == w.letters;
  }

  /** Every call of the letter machine is a run of the identity machine. */
  lemma StepMatches(w: L.LetterWorld, iw: IdentityWorld, c: L.LetterCall, d: Draws, now: Time)
    requires LI.LettersSound(w) && IdentitiesSound(iw) && Matches(w, iw) && FlagTrue(iw, c, d)
    ensures var iw1 := IdentityRun(iw, Image(w, c, d, now));
      Matches(L.LetterStep(w, c, now), iw1) && IdentitiesSound(iw1)
  {
    var calls := Image(w, c, d, now);
    if calls == [] {
      OthersMatch(w, c, d, now);
    } else {
      OneCall(iw, calls[0]);
      IdentityStepKeeps(iw, calls[0]);
      if c.CreateCall? {
        CreateMatches(w, iw, c, now);
      } else {
        ClaimMatches(w, iw, c, d, now);
      }
    }
  }

  /** The flags of a history are true of the draws made along it. */
  ghost predicate FlagsTrue(w: L.LetterWorld, iw: IdentityWorld, h: L.LetterHistory, ds: seq<Draws>)
    decreases |h|
  {
    h == [] || (ds != [] && FlagTrue(iw, h[0].1, ds[0])
                && FlagsTrue(L.LetterStep(w, h[0].1, h[0].0), IdentityRun(iw, Image(w, h[0].1, ds[0], h[0].0)), h[1..], ds[1..]))
  }

  function IdentitiesAfter(w: L.LetterWorld, iw: IdentityWorld, h: L.LetterHistory, ds: seq<Draws>): IdentityWorld
    decreases |h|
  {
    if h == [] || ds == [] then iw
    else IdentitiesAfter(L.LetterStep(w, h[0].1, h[0].0), IdentityRun(iw, Image(w, h[0].1, ds[0], h[0].0)), h[1..], ds[1..])
  }

  lemma {:induction false} RunMatches(w: L.LetterWorld, iw: IdentityWorld, h: L.LetterHistory, ds: seq<Draws>)
    requires LI.LettersSound(w) && 0.0 <= w.clock && L.LetterTimely(h, w.clock)
    requires IdentitiesSound(iw) && Matches(w, iw) && FlagsTrue(w, iw, h, ds)
    ensures Matches(L.LetterRun(w, h), IdentitiesAfter(w, iw, h, ds)) && IdentitiesSound(IdentitiesAfter(w, iw, h, ds))
    decreases |h|
  {
    if h != [] {
      StepMatches(w, iw, h[0].1, ds[0], h[0].0);
      LI.LetterStepKeeps(w, h[0].1, h[0].0);
      LI.StepClock(w, h[0].1, h[0].0);
      RunMatches(L.LetterStep(w, h[0].1, h[0].0), IdentityRun(iw, Image(w, h[0].1, ds[0], h[0].0)), h[1..], ds[1..]);
    }
  }

  /** Over every letter history: whoever has an identity under a letter is its
      author or its salvager, as the letter machine knows them. */
  lemma LetterScopeUsers(h: L.LetterHistory, ds: seq<Draws>, l: Id, u: Id)
    requires L.LetterTimely(h, 0.0) && FlagsTrue(L.EmptyLetters, EmptyIdentities, h, ds)
    ensures var w, iw := L.LetterRun(L.EmptyLetters, h), IdentitiesAfter(L.EmptyLetters, EmptyIdentities, h, ds);
      && |UsersIn(iw, LetterScope(l))| <= 2
      && ((LetterScope(l), u) in iw.ids ==>
            l in w.letters && w.letters[l].salvagedBy.Some?
            && (u == w.letters[l].author || w.letters[l].salvagedBy == Some(u)))
  {
    RunMatches(L.EmptyLetters, EmptyIdentities, h, ds);
    var iw := IdentitiesAfter(L.EmptyLetters, EmptyIdentities, h, ds);
    AtMostTwo(iw, LetterScope(l));
    assert (LetterScope(l), u) in iw.ids ==> Belongs(iw, LetterScope(l), u);
  }
}
