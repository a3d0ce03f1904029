/** What every call keeps about letters, the release queue and the pools, and
    what follows over whole runs. */
module LetterInvariant {
  import opened Basics
  import opened RateLimit
  import opened LetterModel

  // ----- the invariant -----

  /** Destroyed means emptied; a letter has a salvager exactly from its salvage
      on, never its author; times go with the salvager. */
  ghost predicate LetterOk(letter: Letter) {
    && (letter.status == DESTROYED <==> letter.cipher == "")
    && (letter.status == SALVAGED ==> letter.salvagedBy.Some?)
    && (letter.salvagedBy.Some? ==> letter.status == SALVAGED || letter.status == DESTROYED)
    && letter.salvagedBy != Some(letter.author)
    && (letter.salvagedBy.Some? <==> letter.salvagedAt.Some?)
    && (letter.salvagedBy.Some? ==> letter.destroyAt == Some(letter.salvagedAt.value + DAY))
    && letter.releaseAt >= 0.0
  }

  ghost predicate LettersOk(w: LetterWorld) {
    forall id :: id in w.letters ==> LetterOk(w.letters[id]) && id < w.nextLetter
  }

  /** Sealed letters are queued, and every entry carries the letter's release time. */
  ghost predicate SealedOk(w: LetterWorld) {
    && (forall id :: id in w.letters && w.letters[id].status == SEALED ==> id in w.sealed)
    && (forall id :: id in w.sealed ==> id in w.letters && w.sealed[id] == w.letters[id].releaseAt)
  }

  ghost predicate Indexed(w: LetterWorld, id: Id)
    requires id in w.letters
  {
    forall k :: k in KeysOf(w.letters[id]) ==> (k, id) in w.pools
  }

  /** Every available letter is in every pool its emotion and city name. */
  ghost predicate PoolsComplete(w: LetterWorld) {
    forall id :: Available(w, id) ==> Indexed(w, id)
  }

  predicate Early(letter: Letter) {
    letter.status == RISK_REVIEW || letter.status == SEALED
  }

  /** A pool holds only letters that carry its emotion and city and were released. */
  ghost predicate PoolsTrue(w: LetterWorld) {
    forall e :: e in w.pools ==> e.1 in w.letters && e.0 in KeysOf(w.letters[e.1]) && !Early(w.letters[e.1])
  }

  ghost predicate LettersSound(w: LetterWorld) {
    LettersOk(w) && SealedOk(w) && PoolsComplete(w) && PoolsTrue(w)
  }

  // ----- one letter at a time -----

  /** A call that rewrites one letter, keeping its pools' names and release time. */
  ghost predicate Rewrites(w: LetterWorld, w1: LetterWorld, id: Id) {
    && id in w.letters && id in w1.letters
    && w1.letters == w.letters[id := w1.letters[id]]
    && w1.nextLetter == w.nextLetter
    && KeysOf(w1.letters[id]) == KeysOf(w.letters[id])
    && w1.letters[id].releaseAt == w.letters[id].releaseAt
  }

  lemma RewriteKeeps(w: LetterWorld, w1: LetterWorld, id: Id)
    requires LettersSound(w) && Rewrites(w, w1, id) && LetterOk(w1.letters[id])
    requires forall x :: x != id ==> (x in w1.sealed <==> x in w.sealed)
    requires forall x :: x in w1.sealed ==> w1.sealed[x] == if x in w.sealed then w.sealed[x] else w.letters[id].releaseAt
    requires w1.letters[id].status == SEALED ==> id in w1.sealed
    requires forall e: (PoolKey, Id) :: e.1 != id ==> (e in w1.pools <==> e in w.pools)
    requires forall e :: e in w1.pools ==> e in w.pools || (e.1 == id && e.0 in KeysOf(w.letters[id]))
    requires Early(w1.letters[id]) ==> Early(w.letters[id]) && forall e :: e in w1.pools ==> e in w.pools
    requires Available(w1, id) ==> Indexed(w1, id)
    ensures LettersSound(w1)
  {
    forall x | Available(w1, x)
      ensures Indexed(w1, x)
    {
      if x != id {
        assert Available(w, x) && Indexed(w, x);
      }
    }
    forall x | x in w1.sealed
      ensures x in w1.letters && w1.sealed[x] == w1.letters[x].releaseAt
    {
      assert x == id || x in w.sealed;
    }
    forall x | x in w1.letters && w1.letters[x].status == SEALED
      ensures x in w1.sealed
    {
      assert x == id || x in w.sealed;
    }
  }

  /** A call that touches neither letters nor queue nor pools. */
  ghost predicate SameLetters(w: LetterWorld, w1: LetterWorld) {
    w1.letters == w.letters && w1.sealed == w.sealed && w1.pools == w.pools && w1.nextLetter == w.nextLetter
  }

  lemma SameLettersKeeps(w: LetterWorld, w1: LetterWorld)
    requires LettersSound(w) && SameLetters(w, w1)
    ensures LettersSound(w1)
  {
    assert forall id :: Available(w1, id) ==> Available(w, id) && Indexed(w, id);
  }

  lemma ClockKeepsLetters(w: LetterWorld, now: Time)
    requires LettersSound(w)
    ensures LettersSound(w.(clock := now))
  {
    SameLettersKeeps(w, w.(clock := now));
  }

  lemma CreateKeeps(w: LetterWorld, d: Draft, now: Time)
    requires LettersSound(w) && 0.0 <= now
    ensures LettersSound(Create(w, d, now))
  {
    var w1 := Create(w, d, now);
    assert w.nextLetter !in w.letters;
    forall x | Available(w1, x)
      ensures Indexed(w1, x)
    {
      assert Available(w, x) && Indexed(w, x);
    }
  }

  lemma ApproveKeeps(w: LetterWorld, id: Id, releaseNow: bool, now: Time)
    requires LettersSound(w)
    ensures LettersSound(Approve(w, id, releaseNow, now))
  {
    ClockKeepsLetters(w, now);
    if UnderReview(w, id) {
      RewriteKeeps(w, Approve(w, id, releaseNow, now), id);
    }
  }

  lemma WipeKeeps(w: LetterWorld, id: Id)
    requires LettersSound(w) && id in w.letters
    ensures LettersSound(Wipe(w, id))
  {
    RewriteKeeps(w, Wipe(w, id), id);
  }

  lemma ExpireKeeps(w: LetterWorld, now: Time)
    requires LettersSound(w)
    ensures LettersSound(Expire(w, now))
  {
    var w1 := Expire(w, now);
    forall id | id in w1.letters
      ensures LetterOk(w1.letters[id])
      ensures KeysOf(w1.letters[id]) == KeysOf(w.letters[id])
    {
      assert LetterOk(w.letters[id]);
    }
    forall id | Available(w1, id)
      ensures Indexed(w1, id)
    {
      assert Available(w, id) && Indexed(w, id);
    }
  }

  lemma ReleaseOneKeeps(w: LetterWorld, id: Id, now: Time)
    requires LettersSound(w)
    ensures LettersSound(ReleaseOne(w, id, now))
  {
    var w1 := ReleaseOne(w, id, now);
    if id in w.letters {
      if w.letters[id].status != SEALED {
        assert w1.letters == w.letters[id := w.letters[id]];
        assert Available(w, id) ==> Indexed(w, id);
      }
      if w1 != w {
        RewriteKeeps(w, w1, id);
      }
    } else {
      assert w1.sealed == w.sealed;
    }
  }

  lemma {:induction false} ReleaseAllKeeps(w: LetterWorld, batch: seq<Id>, now: Time)
    requires LettersSound(w)
    ensures LettersSound(ReleaseAll(w, batch, now))
  {
    if batch != [] {
      ReleaseAllKeeps(w, batch[..|batch| - 1], now);
      ReleaseOneKeeps(ReleaseAll(w, batch[..|batch| - 1], now), batch[|batch| - 1], now);
    }
  }

  lemma ScrubKeeps(w: LetterWorld, id: Id)
    requires LettersSound(w)
    ensures LettersSound(Scrub(w, id))
  {
    if id in w.letters && !Available(w, id) {
      assert w.letters == w.letters[id := w.letters[id]];
      RewriteKeeps(w, Scrub(w, id), id);
    }
  }

  lemma ClaimKeeps(w: LetterWorld, u: Id, id: Id, limit: int, drawn: bool, now: Time)
    requires LettersSound(w)
    ensures LettersSound(Claim(w, u, id, limit, drawn, now))
  {
    var w1 := Claim(w, u, id, limit, drawn, now);
    if Wins(w, u, id, limit, drawn, now) {
      RewriteKeeps(w, w1, id);
    } else {
      SameLettersKeeps(w, w1);
    }
  }

  lemma IndexWritesKeep(w: LetterWorld)
    requires LettersSound(w)
    ensures LettersSound(Rebuild(w)) && LettersSound(Reconcile(w))
  {
    forall id | Available(w, id)
      ensures Indexed(Rebuild(w), id) && Indexed(Reconcile(w), id)
    {
      assert Indexed(w, id);
    }
  }

  lemma LetterStepKeeps(w: LetterWorld, c: LetterCall, now: Time)
    requires LettersSound(w) && 0.0 <= now
    ensures LettersSound(LetterStep(w, c, now))
  {
    ClockKeepsLetters(w, now);
    match c
    case RegisterCall(u, lastLogin, city) => SameLettersKeeps(w, Register(w, u, lastLogin, city, now));
    case LogInCall(u) => SameLettersKeeps(w, LogIn(w, u, now));
    case AccountCall(u, status) => SameLettersKeeps(w, SetAccountStatus(w, u, status, now));
    case ProfileCall(u, emotion, city) => SameLettersKeeps(w, SetProfile(w, u, emotion, city, now));
    case SleepCall => SameLettersKeeps(w, PutToSleep(w, now));
    case CreateCall(d) => CreateKeeps(w, d, now);
    case ApproveCall(id, releaseNow) => ApproveKeeps(w, id, releaseNow, now);
    case RejectCall(id) =>
      if UnderReview(w, id) {
        WipeKeeps(w, id);
        ClockKeepsLetters(Wipe(w, id), now);
      }
    case ModerateCall(id) =>
      if id in w.letters {
        WipeKeeps(w, id);
        ClockKeepsLetters(Wipe(w, id), now);
      }
    case ExpireCall => ExpireKeeps(w, now);
    case ReleaseCall(batch) =>
      ReleaseAllKeeps(w, batch, now);
      ClockKeepsLetters(ReleaseAll(w, batch, now), now);
    case ScrubCall(id) =>
      ScrubKeeps(w, id);
      ClockKeepsLetters(Scrub(w, id), now);
    case ClaimCall(u, id, limit, drawn) => ClaimKeeps(w, u, id, limit, drawn, now);
    case RebuildCall =>
      IndexWritesKeep(w);
      ClockKeepsLetters(Rebuild(w), now);
    case ReconcileCall =>
      IndexWritesKeep(w);
      ClockKeepsLetters(Reconcile(w), now);
    case BlockCall(u, v) => SameLettersKeeps(w, LetterStep(w, c, now));
  }

  lemma {:induction false} LetterRunKeeps(w: LetterWorld, h: LetterHistory)
    requires LettersSound(w) && 0.0 <= w.clock && LetterTimely(h, w.clock)
    ensures LettersSound(LetterRun(w, h))
    decreases |h|
  {
    if h != [] {
      LetterStepKeeps(w, h[0].1, h[0].0);
      StepClock(w, h[0].1, h[0].0);
      LetterRunKeeps(LetterStep(w, h[0].1, h[0].0), h[1..]);
    }
  }

  lemma StepClock(w: LetterWorld, c: LetterCall, now: Time)
    ensures LetterStep(w, c, now).clock == now
  {
  }

  // ----- the pools as a hint -----

  /** Removing a letter by its own keys leaves no trace of it in any pool. */
  lemma RemovalIsComplete(w: LetterWorld, id: Id)
    requires PoolsTrue(w) && id in w.letters
    ensures forall k :: (k, id) !in RemoveFromPools(w, id).pools
    ensures forall e: (PoolKey, Id) :: e.1 != id ==> (e in RemoveFromPools(w, id).pools <==> e in w.pools)
  {
  }

  /** What the pools select: an available letter is in the pool of an emotion, a
      city or both exactly when these are its own. */
  lemma PoolsSelectByContent(w: LetterWorld, id: Id, emotion: string, city: string)
    requires LettersSound(w) && Available(w, id)
    ensures (All, id) in w.pools
    ensures (ByEmotion(emotion), id) in w.pools <==> emotion != "" && w.letters[id].emotion == emotion
    ensures (ByCity(city), id) in w.pools <==> city != "" && w.letters[id].city == city
    ensures (ByBoth(emotion, city), id) in w.pools
      <==> (ByEmotion(emotion), id) in w.pools && (ByCity(city), id) in w.pools
  {
    assert Indexed(w, id);
  }

  /** From any pools whatever, a rebuild leaves exactly the available letters
      under exactly their keys. */
  lemma RebuildIsExact(w: LetterWorld)
    ensures forall k, id :: (k, id) in Rebuild(w).pools <==> Available(w, id) && k in KeysOf(w.letters[id])
  {
  }

  /** A salvage visits exactly the pools a letter of that emotion and city is
      indexed in, the most specific first and the pool of all letters last. */
  lemma SalvageVisitsTheIndex(emotion: string, city: string)
    ensures multiset(OrderedMatchKeys(emotion, city)) == multiset(AvailableKeys(emotion, city))
    ensures OrderedMatchKeys(emotion, city)[|OrderedMatchKeys(emotion, city)| - 1] == All
  {
  }

  /** Reconciliation restores the index of a letter unless the letter is listed
      among all letters but missing from another of its pools. */
  lemma ReconcileRestoresExactly(w: LetterWorld)
    ensures PoolsComplete(Reconcile(w)) <==> forall id :: Available(w, id) && (All, id) in w.pools ==> Indexed(w, id)
    ensures forall id :: Available(w, id) ==> (All, id) in Reconcile(w).pools
  {
    var w1 := Reconcile(w);
    forall id | Available(w, id)
      ensures (All, id) in w1.pools
      ensures Indexed(w1, id) <==> (All, id) !in w.pools || Indexed(w, id)
    {
      assert All == KeysOf(w.letters[id])[0];
      if (All, id) in w.pools && Indexed(w1, id) {
        forall k | k in KeysOf(w.letters[id])
          ensures (k, id) in w.pools
        {
          assert (k, id) in w1.pools;
        }
      }
    }
  }

  /** After a crash during the index update of a release, the next
      reconciliation mends the index exactly when the crash came before the
      first or after the last pool write. */
  lemma CrashThenReconcile(w: LetterWorld, id: Id, n: nat)
    requires LettersSound(w) && id in w.letters && w.letters[id].status == SEALED && n <= |KeysOf(w.letters[id])|
    ensures PoolsComplete(Reconcile(CrashedRelease(w, id, n))) <==> n == 0 || n == |KeysOf(w.letters[id])|
  {
    var keys := KeysOf(w.letters[id]);
    var w1 := CrashedRelease(w, id, n);
    ReconcileRestoresExactly(w1);
    forall x | x != id && Available(w1, x)
      ensures Indexed(w1, x)
    {
      assert Available(w, x) && Indexed(w, x);
    }
    assert Available(w1, id) && KeysOf(w1.letters[id]) == keys;
    assert forall k :: (k, id) in w1.pools <==> k in keys[..n];
    assert All == keys[0];
    if 0 < n {
      assert keys[..n][0] == All;
      if n < |keys| {
        assert keys[n] in keys && keys[n] !in keys[..n];
      } else {
        assert keys[..n] == keys;
      }
    }
  }

  // ----- one-way life -----

  function Rank(status: LetterStatus): nat {
    match status
    case RISK_REVIEW => 0
    case SEALED => 1
    case AVAILABLE => 2
    case SALVAGED => 3
    case DESTROYED => 4
  }

  /** How a letter may look later. */
  ghost predicate Later(before: Letter, after: Letter) {
    && Rank(before.status) <= Rank(after.status)
    && after.author == before.author && after.createdAt == before.createdAt && KeysOf(after) == KeysOf(before) && after.releaseAt == before.releaseAt
    && (before.salvagedBy.Some? ==>
          after.salvagedBy == before.salvagedBy && after.salvagedAt == before.salvagedAt)
    && (after.cipher == before.cipher || (after.cipher == "" && after.status == DESTROYED))
    && (before.status == DESTROYED ==> after == before)
  }

  lemma {:induction false} ReleaseAllLetters(w: LetterWorld, batch: seq<Id>, now: Time, id: Id)
    requires id in w.letters
    ensures var w1 := ReleaseAll(w, batch, now);
      id in w1.letters
      && (w1.letters[id] == w.letters[id]
          || (w.letters[id].status == SEALED && w.letters[id].releaseAt <= now
              && w1.letters[id] == w.letters[id].(status := AVAILABLE)))
  {
    if batch != [] {
      ReleaseAllLetters(w, batch[..|batch| - 1], now, id);
    }
  }

  /** Calls that leave every letter as it is. */
  lemma StepSameLetters(w: LetterWorld, c: LetterCall, now: Time)
    requires c.RegisterCall? || c.LogInCall? || c.AccountCall? || c.ProfileCall? || c.SleepCall?
          || c.ScrubCall? || c.RebuildCall? || c.ReconcileCall? || c.BlockCall?
    ensures LetterStep(w, c, now).letters == w.letters
  {
  }

  lemma LetterStepLater(w: LetterWorld, c: LetterCall, now: Time, id: Id)
    requires LettersOk(w) && id in w.letters
    ensures id in LetterStep(w, c, now).letters && Later(w.letters[id], LetterStep(w, c, now).letters[id])
  {
    match c
    case CreateCall(d) => CreateLater(w, d, now, id);
    case ClaimCall(u, x, limit, drawn) => ClaimLater(w, u, x, limit, drawn, now, id);
    case ReleaseCall(batch) => ReleaseAllLetters(w, batch, now, id);
    case ApproveCall(x, releaseNow) => ApproveLater(w, x, releaseNow, now, id);
    case RejectCall(x) =>
    case ModerateCall(x) =>
    case ExpireCall => ExpireLater(w, now, id);
    case _ => StepSameLetters(w, c, now);
  }

  lemma ApproveLater(w: LetterWorld, x: Id, releaseNow: bool, now: Time, id: Id)
    requires id in w.letters
    ensures id in Approve(w, x, releaseNow, now).letters
    ensures Later(w.letters[id], Approve(w, x, releaseNow, now).letters[id])
  {
  }

  lemma ExpireLater(w: LetterWorld, now: Time, id: Id)
    requires id in w.letters
    ensures id in Expire(w, now).letters && Later(w.letters[id], Expire(w, now).letters[id])
  {
  }

  lemma CreateLater(w: LetterWorld, d: Draft, now: Time, id: Id)
    requires LettersOk(w) && id in w.letters
    ensures id in Create(w, d, now).letters && Create(w, d, now).letters[id] == w.letters[id]
  {
    assert w.nextLetter !in w.letters;
  }

  lemma ClaimLater(w: LetterWorld, u: Id, x: Id, limit: int, drawn: bool, now: Time, id: Id)
    requires LettersOk(w) && id in w.letters
    ensures id in Claim(w, u, x, limit, drawn, now).letters
    ensures Later(w.letters[id], Claim(w, u, x, limit, drawn, now).letters[id])
  {
    assert LetterOk(w.letters[id]);
  }

  /** Over any run a letter only moves forward, keeps its first salvager, and
      once destroyed never changes again. */
  lemma {:induction false} LetterOneWay(w: LetterWorld, h: LetterHistory, id: Id)
    requires LettersSound(w) && 0.0 <= w.clock && LetterTimely(h, w.clock) && id in w.letters
    ensures id in LetterRun(w, h).letters && Later(w.letters[id], LetterRun(w, h).letters[id])
    decreases |h|
  {
    if h != [] {
      LetterStepLater(w, h[0].1, h[0].0, id);
      LetterStepKeeps(w, h[0].1, h[0].0);
      StepClock(w, h[0].1, h[0].0);
      LetterOneWay(LetterStep(w, h[0].1, h[0].0), h[1..], id);
    }
  }
}
