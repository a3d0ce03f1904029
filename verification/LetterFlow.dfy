/** The flow of letters through release and salvage: progress and safety of the
    release worker, the effect of one salvage, and what creation, review and
    removal mean. */
module LetterFlow {
  import opened Basics
  import opened RateLimit
  import opened LetterModel
  import opened LetterInvariant

  function Members(ids: seq<Id>): set<Id> {
    set id | id in ids
  }

  // ----- release -----

  /** Releasing a due letter takes it out of the queue, whatever its status. */
  lemma ReleaseOneSealed(w: LetterWorld, id: Id, now: Time)
    requires LettersSound(w) && id in Due(w, now)
    ensures ReleaseOne(w, id, now).sealed == w.sealed - {id}
  {
  }

  lemma ReleaseNextSealed(w: LetterWorld, w1: LetterWorld, front: seq<Id>, id: Id, now: Time)
    requires LettersSound(w1) && w1.sealed == w.sealed - Members(front) && id in Due(w, now) && id !in front
    ensures ReleaseOne(w1, id, now).sealed == w.sealed - Members(front + [id])
  {
    ReleaseOneSealed(w1, id, now);
    assert Members(front + [id]) == Members(front) + {id};
  }

  lemma {:induction false} ReleaseAllSealed(w: LetterWorld, batch: seq<Id>, now: Time)
    requires LettersSound(w)
    requires forall i :: 0 <= i < |batch| ==> batch[i] in Due(w, now)
    requires forall i, j :: 0 <= i < j < |batch| ==> batch[i] != batch[j]
    ensures ReleaseAll(w, batch, now).sealed == w.sealed - Members(batch)
  {
    if batch == [] {
      assert w.sealed - Members(batch) == w.sealed;
    } else {
      var n := |batch| - 1;
      ReleaseAllSealed(w, batch[..n], now);
      var w1 := ReleaseAll(w, batch[..n], now);
      ReleaseAllKeeps(w, batch[..n], now);
      assert batch[n] !in batch[..n];
      ReleaseNextSealed(w, w1, batch[..n], batch[n], now);
      assert batch == batch[..n] + [batch[n]];
    }
  }

  /** A pass removes exactly its batch: min(limit, due) of the due entries. */
  lemma PassProgress(w: LetterWorld, batch: seq<Id>, limit: nat, now: Time)
    requires LettersSound(w) && IsBatch(w, batch, limit, now)
    ensures var w1 := Release(w, batch, now);
      && Due(w1, now) == Due(w, now) - Members(batch)
      && |Due(w1, now)| == |Due(w, now)| - (if |Due(w, now)| < limit then |Due(w, now)| else limit)
  {
    var w1 := Release(w, batch, now);
    ReleaseAllSealed(w, batch, now);
    var gone := Members(batch);
    assert Due(w1, now) == Due(w, now) - gone;
    DistinctCount(batch);
    assert gone <= Due(w, now);
  }

  lemma {:induction false} DistinctCount(ids: seq<Id>)
    requires forall i, j :: 0 <= i < j < |ids| ==> ids[i] != ids[j]
    ensures |Members(ids)| == |ids|
  {
    if ids == [] {
      assert Members(ids) == {};
    } else {
      var n := |ids| - 1;
      DistinctCount(ids[..n]);
      assert ids == ids[..n] + [ids[n]];
      assert Members(ids) == Members(ids[..n]) + {ids[n]};
      assert ids[n] !in ids[..n];
    }
  }

  lemma OnePassLess(n: nat, limit: nat, due: nat)
    requires n > 0 && n * limit >= due
    ensures (n - 1) * limit >= due - (if due < limit then due else limit)
  {
    assert n * limit == (n - 1) * limit + limit;
  }

  function Passes(w: LetterWorld, batches: seq<seq<Id>>, now: Time): LetterWorld
    decreases |batches|
  {
    if batches == [] then w else Passes(Release(w, batches[0], now), batches[1..], now)
  }

  /** Each batch is a possible answer at its pass. */
  ghost predicate ArePasses(w: LetterWorld, batches: seq<seq<Id>>, limit: nat, now: Time)
    decreases |batches|
  {
    batches == []
    || (IsBatch(w, batches[0], limit, now) && ArePasses(Release(w, batches[0], now), batches[1..], limit, now))
  }

  /** Enough passes drain everything due, and then no sealed letter is overdue. */
  lemma {:induction false} PassesDrain(w: LetterWorld, batches: seq<seq<Id>>, limit: nat, now: Time)
    requires LettersSound(w) && ArePasses(w, batches, limit, now) && 0.0 <= now
    requires |batches| * limit >= |Due(w, now)|
    ensures var w1 := Passes(w, batches, now);
      Due(w1, now) == {}
      && forall id :: id in w1.letters && w1.letters[id].status == SEALED ==> w1.letters[id].releaseAt > now
    decreases |batches|
  {
    if batches == [] {
      assert Due(w, now) == {};
      forall id | id in w.letters && w.letters[id].status == SEALED
        ensures w.letters[id].releaseAt > now
      {
        assert id !in Due(w, now) && id in w.sealed && LetterOk(w.letters[id]);
      }
    } else {
      PassProgress(w, batches[0], limit, now);
      LetterStepKeeps(w, ReleaseCall(batches[0]), now);
      OnePassLess(|batches|, limit, |Due(w, now)|);
      PassesDrain(Release(w, batches[0], now), batches[1..], limit, now);
    }
  }

  /** The worker changes a letter only from SEALED to AVAILABLE, and never
      before its release time. */
  lemma NeverReleasedEarly(w: LetterWorld, batch: seq<Id>, now: Time, id: Id)
    requires id in w.letters
    ensures var w1 := Release(w, batch, now);
      id in w1.letters
      && (w1.letters[id] != w.letters[id] ==>
            w.letters[id].status == SEALED && w.letters[id].releaseAt <= now
            && w1.letters[id] == w.letters[id].(status := AVAILABLE))
  {
    ReleaseAllLetters(w, batch, now, id);
  }

  // ----- the effect of a salvage -----

  lemma {:induction false} ScrubAllEffect(w: LetterWorld, ids: seq<Id>)
    ensures ScrubAll(w, ids) == w.(pools := ScrubAll(w, ids).pools)
    ensures ScrubAll(w, ids).pools <= w.pools
    ensures forall e :: e in w.pools && e !in ScrubAll(w, ids).pools ==> e.1 in ids && !Available(w, e.1)
  {
    if ids != [] {
      ScrubAllEffect(w, ids[..|ids| - 1]);
    }
  }

  lemma {:induction false} ScrubAllKeeps(w: LetterWorld, ids: seq<Id>)
    requires LettersSound(w)
    ensures LettersSound(ScrubAll(w, ids))
  {
    if ids != [] {
      ScrubAllKeeps(w, ids[..|ids| - 1]);
      ScrubKeeps(ScrubAll(w, ids[..|ids| - 1]), ids[|ids| - 1]);
    }
  }

  /** A salvage that scrubbed `ids` and then claimed `id`. With quota left and
      both identities drawn, one letter moves to SALVAGED and is in no pool;
      otherwise no letter changes. The counter grows by one either way, and only
      dead ids and the salvaged one leave the pools. */
  lemma SalvageEffect(w: LetterWorld, ids: seq<Id>, u: Id, id: Id, limit: int, drawn: bool, now: Time)
    requires LettersSound(w) && Claimable(w, u, id)
    ensures var w1 := Claim(ScrubAll(w, ids), u, id, limit, drawn, now);
      var won := Admits(w.quota, Request(u, limit, now), 86400.0) && drawn;
      && LettersSound(w1) && id in w1.letters
      && (forall x :: x in w.letters && x != id ==> x in w1.letters && w1.letters[x] == w.letters[x])
      && w1.quota.live == w.quota.live[u := Incremented(w.quota, u, 86400.0, now)]
      && (if won then
            && w1.letters[id].status == SALVAGED && w1.letters[id].salvagedBy == Some(u)
            && w1.letters[id].salvagedAt == Some(now) && w1.letters[id].destroyAt == Some(now + 86400.0)
            && w1.letters[id].cipher == w.letters[id].cipher
            && (forall k :: (k, id) !in w1.pools)
          else w1.letters == w.letters)
      && (forall e :: e in w.pools && e !in w1.pools ==> (e.1 in ids && !Available(w, e.1)) || (e.1 == id && won))
  {
    ScrubAllEffect(w, ids);
    ScrubAllKeeps(w, ids);
    var w0 := ScrubAll(w, ids);
    ClaimKeeps(w0, u, id, limit, drawn, now);
  }

  // ----- what creation, review and removal mean -----

  ghost predicate InNoPool(w: LetterWorld, id: Id) {
    forall k :: (k, id) !in w.pools
  }

  /** A draft that is accepted becomes one letter, never open to salvage at once: a
      risky one waits for review outside the release queue, any other is queued for
      its release after exactly the requested delay. The author's emotion and city follow it, and the letter
      falls back on the author's city. A refused draft leaves letters and profile
      alone, but every well-formed draft counts against the daily limit. */
  lemma CreateOutcome(w: LetterWorld, d: Draft, now: Time)
    requires LettersSound(w) && 0.0 <= now
    ensures var w1 := Create(w, d, now);
      var id := w.nextLetter;
      && (forall x :: x in w.letters ==> x in w1.letters && w1.letters[x] == w.letters[x])
      && (if d.cipher != "" && d.delay >= 1.0 && d.verdict != Refused && Admits(w.posts, Request(d.author, d.limit, now), 86400.0)
          then
            && id !in w.letters && id in w1.letters && InNoPool(w1, id)
            && w1.letters[id].author == d.author && w1.letters[id].cipher == d.cipher
            && w1.letters[id].createdAt == now && w1.letters[id].releaseAt == now + d.delay
            && (if d.verdict == HighRisk then UnderReview(w1, id) && id !in w1.sealed
                else w1.letters[id].status == SEALED && id in w1.sealed && w1.sealed[id] == w1.letters[id].releaseAt)
            && d.author in w1.accounts && w1.accounts[d.author].emotion == w1.letters[id].emotion == d.emotion
            && w1.accounts[d.author].city == w1.letters[id].city
            && w1.letters[id].city == (if d.city != "" then d.city else AccountOf(w, d.author).city)
          else SameLetters(w, w1) && w1.accounts == w.accounts)
      && w1.posts.live == (if d.cipher != "" && d.delay >= 1.0
                           then w.posts.live[d.author := Incremented(w.posts, d.author, 86400.0, now)] else w.posts.live)
  {
    CreateKeeps(w, d, now);
    assert w.nextLetter !in w.letters;
  }

  /** Approval opens a letter to salvage under all its keys, or queues it for its
      release; rejection empties it. Neither touches another letter. */
  lemma ReviewOutcome(w: LetterWorld, id: Id, releaseNow: bool, now: Time)
    requires LettersSound(w) && UnderReview(w, id) && 0.0 <= now
    ensures var w1 := Approve(w, id, releaseNow, now);
      && id in w1.letters && w1.letters == w.letters[id := w1.letters[id]] && w1.letters[id].cipher == w.letters[id].cipher
      && (if releaseNow || w.letters[id].releaseAt <= now then Available(w1, id) && Indexed(w1, id)
          else w1.letters[id].status == SEALED && id in w1.sealed && w1.sealed[id] > now && InNoPool(w1, id))
    ensures var w1 := Reject(w, id, now);
      && id in w1.letters && w1.letters == w.letters[id := w1.letters[id]]
      && w1.letters[id].status == DESTROYED && w1.letters[id].cipher == "" && InNoPool(w1, id)
  {
    ApproveKeeps(w, id, releaseNow, now);
  }

  /** Removal after a complaint empties the letter but leaves its pool entries;
      nobody can claim it, and the first draw of it clears every entry. */
  lemma ModerationOutcome(w: LetterWorld, id: Id, now: Time, u: Id)
    requires LettersSound(w) && Available(w, id)
    ensures var w1 := Moderate(w, id, now);
      && w1.letters[id].cipher == "" && !Claimable(w1, u, id)
      && Indexed(w1, id) && !InNoPool(w1, id) && InNoPool(Scrub(w1, id), id)
  {
    var w1 := Moderate(w, id, now);
    WipeKeeps(w, id);
    assert Indexed(w, id) && KeysOf(w.letters[id])[0] == All;
    assert PoolsTrue(w1);
    RemovalIsComplete(w1, id);
    assert (All, id) in w1.pools;
  }

  /** Not open to salvage, and never salvaged. */
  predicate Closed(letter: Letter) {
    letter.status == RISK_REVIEW || letter.status == SEALED || (letter.status == DESTROYED && letter.salvagedBy.None?)
  }

  lemma StepClosed(w: LetterWorld, c: LetterCall, now: Time, id: Id)
    requires LettersOk(w) && id in w.letters && Closed(w.letters[id]) && now < w.letters[id].releaseAt
    requires c != ApproveCall(id, true)
    ensures id in LetterStep(w, c, now).letters && Closed(LetterStep(w, c, now).letters[id])
    ensures LetterStep(w, c, now).letters[id].releaseAt == w.letters[id].releaseAt
  {
    LetterStepLater(w, c, now, id);
    assert LetterOk(w.letters[id]);
    match c
    case CreateCall(d) => CreateLater(w, d, now, id);
    case ReleaseCall(batch) => ReleaseAllLetters(w, batch, now, id);
    case ClaimCall(u, x, limit, drawn) => ClosedUnclaimed(w, u, x, limit, drawn, now, id);
    case ExpireCall =>
    case ApproveCall(x, releaseNow) =>
    case RejectCall(x) =>
    case ModerateCall(x) =>
    case _ => StepSameLetters(w, c, now);
  }

  lemma ClosedUnclaimed(w: LetterWorld, u: Id, x: Id, limit: int, drawn: bool, now: Time, id: Id)
    requires id in w.letters && Closed(w.letters[id])
    ensures id in Claim(w, u, x, limit, drawn, now).letters && Claim(w, u, x, limit, drawn, now).letters[id] == w.letters[id]
  {
  }

  /** Over every run that ends before a letter's release time, and in which no admin
      approves it for release at once, the letter stays closed. */
  lemma {:induction false} ClosedUntilRelease(w: LetterWorld, h: LetterHistory, id: Id)
    requires LettersSound(w) && 0.0 <= w.clock && LetterTimely(h, w.clock) && id in w.letters && Closed(w.letters[id])
    requires forall i :: 0 <= i < |h| ==> h[i].0 < w.letters[id].releaseAt && h[i].1 != ApproveCall(id, true)
    ensures id in LetterRun(w, h).letters && Closed(LetterRun(w, h).letters[id])
    decreases |h|
  {
    if h != [] {
      StepClosed(w, h[0].1, h[0].0, id);
      LetterStepKeeps(w, h[0].1, h[0].0);
      StepClock(w, h[0].1, h[0].0);
      assert forall i :: 0 <= i < |h[1..]| ==> h[1..][i] == h[i + 1];
      ClosedUntilRelease(LetterStep(w, h[0].1, h[0].0), h[1..], id);
    }
  }

  /** So a new letter stays closed for the delay its author asked for. */
  lemma DelayIsKept(w: LetterWorld, d: Draft, now: Time, h: LetterHistory)
    requires LettersSound(w) && 0.0 <= w.clock <= now && Accepted(w, d, now) && LetterTimely(h, now)
    requires forall i :: 0 <= i < |h| ==> h[i].0 < now + d.delay && h[i].1 != ApproveCall(w.nextLetter, true)
    ensures var w1 := LetterRun(Create(w, d, now), h);
      w.nextLetter in w1.letters && Closed(w1.letters[w.nextLetter])
  {
    CreateOutcome(w, d, now);
    CreateKeeps(w, d, now);
    ClosedUntilRelease(Create(w, d, now), h, w.nextLetter);
  }

  /** And the first pass large enough at or after the release time opens it. */
  lemma OpensOnTime(w: LetterWorld, batch: seq<Id>, limit: nat, now: Time, id: Id)
    requires LettersSound(w) && IsBatch(w, batch, limit, now) && |Due(w, now)| <= limit && 0.0 <= now
    requires id in w.letters && w.letters[id].status == SEALED && w.letters[id].releaseAt <= now
    ensures var w1 := Release(w, batch, now);
      Available(w1, id) && Indexed(w1, id) && w1.letters[id] == w.letters[id].(status := AVAILABLE)
  {
    PassProgress(w, batch, limit, now);
    LetterStepKeeps(w, ReleaseCall(batch), now);
    ReleaseAllLetters(w, batch, now, id);
    var w1 := Release(w, batch, now);
    assert Due(w1, now) == {};
    assert LetterOk(w.letters[id]);
    assert w1.letters[id].status == SEALED ==> id in w1.sealed && id in Due(w1, now);
  }

  /** A salvaged letter lives for exactly a day. */
  lemma LifeOfASalvage(w: LetterWorld, now: Time, id: Id)
    requires LettersSound(w) && id in w.letters && w.letters[id].status == SALVAGED
    ensures w.letters[id].salvagedAt.Some?
    ensures Expire(w, now).letters[id]
      == if now >= w.letters[id].salvagedAt.value + 86400.0 then w.letters[id].(status := DESTROYED, cipher := "") else w.letters[id]
  {
    assert LetterOk(w.letters[id]);
  }

  /** After the letter worker no salvaged letter is past its time; exactly those
      that were are emptied and in no pool. */
  lemma ExpireOutcome(w: LetterWorld, now: Time, id: Id)
    requires LettersSound(w) && id in w.letters
    ensures var w1 := Expire(w, now);
      && id in w1.letters && !LifeOver(w1.letters[id], now)
      && (if LifeOver(w.letters[id], now)
          then w1.letters[id].status == DESTROYED && w1.letters[id].cipher == "" && InNoPool(w1, id)
          else w1.letters[id] == w.letters[id] && forall k :: (k, id) in w1.pools <==> (k, id) in w.pools)
  {
  }
}
