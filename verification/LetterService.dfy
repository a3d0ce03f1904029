/** The letter services and workers over their tables, sets and queue, updated in
    place; each method is proved to take the step of its model call. */
module LetterService {
  import opened Basics
  import opened RateLimit
  import opened LetterModel
  import opened LetterInvariant
  import opened LetterFlow
  import opened LetterQuota
  import opened SalvageOrder

  datatype SalvageOutcome = Nothing | Won(letter: Id) | QuotaExceeded(letter: Id) | IdentityFailed(letter: Id)

  function Found(outcome: SalvageOutcome): Option<Id> {
    if outcome.Nothing? then None else Some(outcome.letter)
  }

  ghost predicate AllDead(w: LetterWorld, ids: seq<Id>) {
    forall i :: 0 <= i < |ids| ==> !Available(w, ids[i])
  }

  /** Scrubs of dead letters, then at most one claim. */
  ghost predicate Drew(w: LetterWorld, w1: LetterWorld, u: Id, outcome: SalvageOutcome, scrubbed: seq<Id>,
                       limit: int, identities: bool, now: Time) {
    AllDead(w, scrubbed)
    && if outcome.Nothing? then w1 == ScrubAll(w, scrubbed)
       else
         && Good(w, u, outcome.letter) && w1 == Claim(ScrubAll(w, scrubbed), u, outcome.letter, limit, identities, now)
         && (outcome.Won? <==> Wins(w, u, outcome.letter, limit, identities, now))
         && (outcome.QuotaExceeded? <==> !Affordable(w, u, limit, now))
  }

  /** The state of the draws from a pool. */
  ghost predicate Drawing(w: LetterWorld, w1: LetterWorld, u: Id, key: PoolKey, row: seq<Id>, seen: set<Id>, scrubbed: seq<Id>) {
    && AllDead(w, scrubbed) && w1 == ScrubAll(w, scrubbed) && LettersSound(w1) && Scrubbed(w, w1)
    && RowSoFar(w, w1, u, key, row, seen)
  }

  lemma DrawingStarts(w: LetterWorld, u: Id, key: PoolKey, tried: set<Id>)
    requires LettersSound(w) && TriedOk(w, u, tried)
    ensures Drawing(w, w, u, key, [], tried, [])
  {
  }

  /** A drawn letter is passed over, or scrubbed if it is dead and new. */
  lemma DrawingOn(w: LetterWorld, w1: LetterWorld, u: Id, key: PoolKey, row: seq<Id>, seen: set<Id>, scrubbed: seq<Id>, id: Id)
    requires Drawing(w, w1, u, key, row, seen, scrubbed) && id in PoolOf(w1, key)
    ensures id in seen || (Available(w1, id) && !Good(w1, u, id)) ==>
      Drawing(w, w1, u, key, row + [id], seen + {id}, scrubbed)
    ensures id !in seen && !Available(w1, id) ==>
      Drawing(w, Scrub(w1, id), u, key, row + [id], seen + {id}, scrubbed + [id])
  {
    if id in seen || (Available(w, id) && !Good(w, u, id)) {
      RowPasses(w, w1, u, key, row, seen, id);
    } else if !Available(w, id) {
      RowScrubs(w, w1, u, key, row, seen, id);
      ScrubKeeps(w1, id);
      assert (scrubbed + [id])[..|scrubbed|] == scrubbed;
    }
  }

  function TakenAs(w: LetterWorld, u: Id, id: Id, limit: int, identities: bool, now: Time): SalvageOutcome {
    if Wins(w, u, id, limit, identities, now) then Won(id)
    else if Affordable(w, u, limit, now) then IdentityFailed(id)
    else QuotaExceeded(id)
  }

  lemma DrewClaim(w: LetterWorld, w0: LetterWorld, u: Id, id: Id, scrubbed: seq<Id>, outcome: SalvageOutcome,
                  limit: int, identities: bool, now: Time)
    requires AllDead(w, scrubbed) && w0 == ScrubAll(w, scrubbed) && Good(w0, u, id)
    requires outcome == TakenAs(w0, u, id, limit, identities, now)
    ensures Drew(w, Claim(w0, u, id, limit, identities, now), u, outcome, scrubbed, limit, identities, now)
  {
    ScrubAllScrubs(w, scrubbed);
  }

  lemma DrawingFinds(w: LetterWorld, w1: LetterWorld, u: Id, key: PoolKey, row: seq<Id>, seen: set<Id>, scrubbed: seq<Id>, id: Id)
    requires Drawing(w, w1, u, key, row, seen, scrubbed) && |row| < 20 && id in PoolOf(w1, key) && Good(w1, u, id)
    ensures IsRow(w, w1, u, key, row + [id], Some(id)) && AllDead(w, scrubbed) && w1 == ScrubAll(w, scrubbed)
  {
    RowFinds(w, w1, u, key, row, seen, id);
  }

  lemma DrawingEnds(w: LetterWorld, w1: LetterWorld, u: Id, key: PoolKey, row: seq<Id>, seen: set<Id>, scrubbed: seq<Id>)
    requires Drawing(w, w1, u, key, row, seen, scrubbed) && |row| <= 20 && (|row| == 20 || PoolOf(w1, key) == {})
    ensures IsRow(w, w1, u, key, row, None) && AllDead(w, scrubbed) && w1 == ScrubAll(w, scrubbed) && TriedOk(w1, u, seen)
  {
  }

  lemma DrawsAdd(w: LetterWorld, scrubbed: seq<Id>, more: seq<Id>)
    requires AllDead(w, scrubbed)
    ensures ScrubAll(w, scrubbed + more) == ScrubAll(ScrubAll(w, scrubbed), more)
    ensures Scrubbed(w, ScrubAll(w, scrubbed)) && Scrubbed(w, ScrubAll(w, scrubbed + more))
    ensures ScrubAll(w, scrubbed + more).pools <= ScrubAll(w, scrubbed).pools
  {
    ScrubAllAppend(w, scrubbed, more);
    ScrubAllScrubs(w, scrubbed);
    ScrubAllScrubs(w, scrubbed + more);
    ScrubAllScrubs(ScrubAll(w, scrubbed), more);
  }

  lemma DrewAfter(w: LetterWorld, w0: LetterWorld, w1: LetterWorld, u: Id, outcome: SalvageOutcome,
                  scrubbed: seq<Id>, more: seq<Id>, limit: int, identities: bool, now: Time)
    requires AllDead(w, scrubbed) && w0 == ScrubAll(w, scrubbed) && Drew(w0, w1, u, outcome, more, limit, identities, now)
    ensures Drew(w, w1, u, outcome, scrubbed + more, limit, identities, now)
  {
    DrawsAdd(w, scrubbed, more);
  }

  lemma {:induction false} LeastScore(ids: set<Id>, score: map<Id, Time>)
    requires ids != {} && ids <= score.Keys
    ensures exists id :: id in ids && forall x :: x in ids ==> score[id] <= score[x]
  {
    Inhabited(ids);
    var a :| a in ids;
    var rest := ids - {a};
    assert ids == {a} + rest;
    if rest == {} {
      assert forall x :: x in ids ==> score[a] <= score[x];
    } else {
      LeastScore(rest, score);
      var m :| m in rest && forall x :: x in rest ==> score[m] <= score[x];
      var least := if score[a] <= score[m] then a else m;
      assert least in ids && forall x :: x in ids ==> score[least] <= score[x];
    }
  }

  /** The letters a worker pass turned from SEALED to AVAILABLE. */
  ghost function ReleasedBetween(before: LetterWorld, after: LetterWorld): set<Id> {
    set id | id in before.letters && id in after.letters
             && before.letters[id].status == SEALED && after.letters[id].status == AVAILABLE
  }

  /** Part of a reconciliation: letters in `todo` are not looked at yet. */
  ghost function ReconcileBut(w: LetterWorld, todo: set<Id>): set<(PoolKey, Id)> {
    w.pools + (set id, k | id in w.letters && w.letters[id].status == AVAILABLE && id !in todo
                           && (All, id) !in w.pools && k in KeysOf(w.letters[id]) :: (k, id))
  }

  /** Available letters outside `todo` that the pool of all letters did not list. */
  ghost function Unlisted(w: LetterWorld, todo: set<Id>): set<Id> {
    set id | id in w.letters && w.letters[id].status == AVAILABLE && id !in todo && (All, id) !in w.pools
  }

  lemma ReconcileEnds(w: LetterWorld, rows: set<Id>)
    requires rows == set id | id in w.letters && w.letters[id].status == AVAILABLE
    ensures ReconcileBut(w, rows) == w.pools && Unlisted(w, rows) == {}
    ensures ReconcileBut(w, {}) == Reconcile(w).pools
  {
  }

  lemma ReconcileNext(w: LetterWorld, todo: set<Id>, id: Id)
    requires id in todo && Available(w, id)
    ensures (All, id) in ReconcileBut(w, todo) <==> (All, id) in w.pools
    ensures ReconcileBut(w, todo - {id})
         == if (All, id) in w.pools then ReconcileBut(w, todo)
            else ReconcileBut(w, todo) + PoolEntries(KeysOf(w.letters[id]), id)
    ensures |Unlisted(w, todo - {id})| == |Unlisted(w, todo)| + if (All, id) in w.pools then 0 else 1
  {
    if (All, id) in w.pools {
      assert ReconcileBut(w, todo - {id}) == ReconcileBut(w, todo);
      assert Unlisted(w, todo - {id}) == Unlisted(w, todo);
    } else {
      assert Unlisted(w, todo - {id}) == Unlisted(w, todo) + {id} && id !in Unlisted(w, todo);
    }
  }

  /** Part of the cleanup: letters in `todo` are not expired yet. */
  ghost function ExpireBut(w: LetterWorld, todo: set<Id>, now: Time): LetterWorld {
    w.(letters := map id | id in w.letters ::
         if LifeOver(w.letters[id], now) && id !in todo then w.letters[id].(status := DESTROYED, cipher := "")
         else w.letters[id],
       pools := (set e | e in w.pools
         && !(e.1 in w.letters && LifeOver(w.letters[e.1], now) && e.1 !in todo && e.0 in KeysOf(w.letters[e.1]))))
  }

  lemma ExpireStep(w: LetterWorld, todo: set<Id>, id: Id, now: Time)
    requires id in todo && id in w.letters && LifeOver(w.letters[id], now)
    ensures id in ExpireBut(w, todo, now).letters
    ensures ExpireBut(w, todo - {id}, now) == RemoveFromPools(Wipe(ExpireBut(w, todo, now), id), id)
  {
    var w1, w2 := ExpireBut(w, todo - {id}, now), RemoveFromPools(Wipe(ExpireBut(w, todo, now), id), id);
    assert w1.letters == w2.letters;
    forall e: (PoolKey, Id)
      ensures e in w1.pools <==> e in w2.pools
    {
    }
    assert w1.pools == w2.pools;
  }

  class Service {
    var letters: map<Id, Letter>
    var sealed: map<Id, Time>
    var pools: set<(PoolKey, Id)>
    var quota: Counters<Id>
    var posts: Counters<Id>
    var accounts: map<Id, Account>
    var blocks: set<(Id, Id)>
    var nextLetter: Id
    var clock: Time

    ghost function Snapshot(): LetterWorld
      reads this
    {
      LetterWorld(letters, sealed, pools, quota, posts, accounts, blocks, nextLetter, clock)
    }

    ghost predicate Valid()
      reads this
    {
      LettersSound(Snapshot())
    }

    constructor ()
      ensures Valid() && Snapshot() == EmptyLetters
    {
      letters, sealed, pools, quota, posts := map[], map[], {}, NoCounters(), NoCounters();
      accounts, blocks, nextLetter, clock := map[], {}, 1, 0.0;
    }

    // ----- pools -----

    method AddToAvailablePools(id: Id)
      requires id in letters
      modifies this`pools
      ensures Snapshot() == AddToPools(old(Snapshot()), id)
    {
      if letters[id].status != AVAILABLE {
        return;
      }
      var keys := AvailableKeys(letters[id].emotion, letters[id].city);
      for i := 0 to |keys|
        invariant pools == old(pools) + PoolEntries(keys[..i], id)
      {
        pools := pools + {(keys[i], id)};
        assert keys[..i + 1] == keys[..i] + [keys[i]];
      }
      assert keys[..|keys|] == keys;
    }

    method RemoveFromAvailablePools(id: Id)
      requires id in letters
      modifies this`pools
      ensures Snapshot() == RemoveFromPools(old(Snapshot()), id)
    {
      var keys := AvailableKeys(letters[id].emotion, letters[id].city);
      for i := 0 to |keys|
        invariant pools == old(pools) - PoolEntries(keys[..i], id)
      {
        pools := pools - {(keys[i], id)};
        assert keys[..i + 1] == keys[..i] + [keys[i]];
      }
      assert keys[..|keys|] == keys;
    }

    method RebuildPools(now: Time) returns (count: nat)
      requires Valid() && 0.0 <= now
      modifies this
      ensures Valid() && Snapshot() == LetterStep(old(Snapshot()), RebuildCall, now)
      ensures count == |set id | id in letters && letters[id].status == AVAILABLE|
    {
      LetterStepKeeps(Snapshot(), RebuildCall, now);
      count := RebuildRows();
      clock := now;
    }

    method RebuildRows() returns (count: nat)
      modifies this`pools
      ensures Snapshot() == Rebuild(old(Snapshot()))
      ensures count == |set id | id in letters && letters[id].status == AVAILABLE|
    {
      ghost var before := Snapshot();
      var rows := set id | id in letters && letters[id].status == AVAILABLE;
      count := |rows|;
      pools := {};
      var todo := rows;
      while todo != {}
        invariant todo <= rows && Snapshot() == before.(pools := pools)
        invariant pools == set id, k | id in rows && id !in todo && k in KeysOf(letters[id]) :: (k, id)
        decreases todo
      {
        Inhabited(todo);
        var id :| id in todo;
        AddToAvailablePools(id);
        todo := todo - {id};
      }
    }

    method ReconcileLetter(id: Id) returns (added: bool)
      requires id in letters
      modifies this`pools
      ensures Snapshot() == if added then AddToPools(old(Snapshot()), id) else old(Snapshot())
      ensures added <==> (All, id) !in old(pools)
    {
      added := (All, id) !in pools;
      if added {
        AddToAvailablePools(id);
      }
    }

    method ReconcileRows() returns (missing: nat)
      modifies this`pools
      ensures Snapshot() == Reconcile(old(Snapshot()))
      ensures missing == |Unlisted(old(Snapshot()), {})|
    {
      ghost var before := Snapshot();
      var todo := set id | id in letters && letters[id].status == AVAILABLE;
      missing := 0;
      ReconcileEnds(before, todo);
      while todo != {}
        invariant (forall id :: id in todo ==> Available(before, id)) && pools == ReconcileBut(before, todo)
        invariant missing == |Unlisted(before, todo)|
        decreases todo
      {
        Inhabited(todo);
        var id :| id in todo;
        ReconcileNext(before, todo, id);
        var added := ReconcileLetter(id);
        missing := if added then missing + 1 else missing;
        todo := todo - {id};
      }
    }

    method ReconcilePools(now: Time) returns (missing: nat)
      requires Valid() && 0.0 <= now
      modifies this
      ensures Valid() && Snapshot() == LetterStep(old(Snapshot()), ReconcileCall, now)
      ensures missing == |Unlisted(old(Snapshot()), {})|
    {
      LetterStepKeeps(Snapshot(), ReconcileCall, now);
      missing := ReconcileRows();
      clock := now;
    }

    // ----- creation and review -----

    /** The daily limit is counted first; only then is the content judged. */
    method CreateLetter(d: Draft, now: Time) returns (id: Option<Id>)
      requires Valid() && 0.0 <= now
      modifies this
      ensures Valid() && Snapshot() == LetterStep(old(Snapshot()), CreateCall(d), now)
      ensures id == if Accepted(old(Snapshot()), d, now) then Some(old(nextLetter)) else None
    {
      LetterStepKeeps(Snapshot(), CreateCall(d), now);
      id := None;
      if d.cipher != "" && d.delay >= 1.0 {
        id := PostDraft(d, now);
      }
      clock := now;
    }

    method PostDraft(d: Draft, now: Time) returns (id: Option<Id>)
      requires WellFormed(d)
      modifies this
      ensures Snapshot().(clock := now) == Create(old(Snapshot()), d, now)
      ensures id == if Accepted(old(Snapshot()), d, now) then Some(old(nextLetter)) else None
    {
      id := None;
      var allowed := Admits(posts, Request(d.author, d.limit, now), DAY);
      ghost var before := posts;
      if allowed && d.verdict != Refused {
        id := Some(nextLetter);
        InsertLetter(d, if d.verdict == HighRisk then RISK_REVIEW else SEALED, now);
      }
      assert posts == before;
      posts := Serve(posts, Request(d.author, d.limit, now), DAY);
    }

    method InsertLetter(d: Draft, status: LetterStatus, now: Time)
      requires status == if d.verdict == HighRisk then RISK_REVIEW else SEALED
      modifies this`letters, this`sealed, this`accounts, this`nextLetter
      ensures Snapshot() == Insert(old(Snapshot()), d, now)
    {
      var own := if d.author in accounts then accounts[d.author] else Account(Active, None, clock, "", "");
      var city := if d.city != "" then d.city else own.city;
      letters := letters[nextLetter := Letter(d.author, d.cipher, d.emotion, city, status, now, now + d.delay, None, None, None)];
      own := own.(emotion := d.emotion);
      if d.city != "" {
        own := own.(city := d.city);
      }
      accounts := accounts[d.author := own];
      if status == SEALED {
        sealed := sealed[nextLetter := now + d.delay];
      }
      nextLetter := nextLetter + 1;
    }

    method ApproveLetter(id: Id, releaseNow: bool, now: Time) returns (found: bool)
      requires Valid() && 0.0 <= now
      modifies this
      ensures Valid() && Snapshot() == LetterStep(old(Snapshot()), ApproveCall(id, releaseNow), now)
      ensures found <==> UnderReview(old(Snapshot()), id)
    {
      LetterStepKeeps(Snapshot(), ApproveCall(id, releaseNow), now);
      clock := now;
      if id !in letters || letters[id].status != RISK_REVIEW {
        return false;
      }
      if releaseNow || letters[id].releaseAt <= now {
        letters := letters[id := letters[id].(status := AVAILABLE)];
        AddToAvailablePools(id);
      } else {
        letters := letters[id := letters[id].(status := SEALED)];
        sealed := sealed[id := letters[id].releaseAt];
      }
      found := true;
    }

    method RejectLetter(id: Id, now: Time) returns (found: bool)
      requires Valid() && 0.0 <= now
      modifies this
      ensures Valid() && Snapshot() == LetterStep(old(Snapshot()), RejectCall(id), now)
      ensures found <==> UnderReview(old(Snapshot()), id)
    {
      LetterStepKeeps(Snapshot(), RejectCall(id), now);
      clock := now;
      found := id in letters && letters[id].status == RISK_REVIEW;
      if found {
        letters := letters[id := letters[id].(status := DESTROYED, cipher := "")];
      }
    }

    /** Content removal when a complaint is upheld. */
    method RemoveContent(id: Id, now: Time)
      requires Valid() && 0.0 <= now
      modifies this
      ensures Valid() && Snapshot() == LetterStep(old(Snapshot()), ModerateCall(id), now)
    {
      LetterStepKeeps(Snapshot(), ModerateCall(id), now);
      clock := now;
      if id in letters {
        letters := letters[id := letters[id].(status := DESTROYED, cipher := "")];
      }
    }

    /** The letter loop of the cleanup worker. */
    method ExpireLetters(now: Time) returns (count: nat)
      requires Valid() && 0.0 <= now
      modifies this
      ensures Valid() && Snapshot() == LetterStep(old(Snapshot()), ExpireCall, now)
      ensures count == |set id | id in old(letters) && LifeOver(old(letters)[id], now)|
    {
      LetterStepKeeps(Snapshot(), ExpireCall, now);
      count := ExpireRows(now);
      clock := now;
    }

    method ExpireRows(now: Time) returns (count: nat)
      modifies this`letters, this`pools
      ensures Snapshot().(clock := now) == Expire(old(Snapshot()), now)
      ensures count == |set id | id in old(letters) && LifeOver(old(letters)[id], now)|
    {
      ghost var before := Snapshot();
      var over := set id | id in letters && LifeOver(letters[id], now);
      count := |over|;
      var todo := over;
      assert ExpireBut(before, over, now).letters == before.letters && ExpireBut(before, over, now).pools == before.pools;
      while todo != {}
        invariant todo <= over && Snapshot() == ExpireBut(before, todo, now)
        decreases todo
      {
        Inhabited(todo);
        var id :| id in todo;
        ExpireStep(before, todo, id, now);
        letters := letters[id := letters[id].(status := DESTROYED, cipher := "")];
        RemoveFromAvailablePools(id);
        todo := todo - {id};
      }
      assert ExpireBut(before, {}, now).letters == Expire(before, now).letters;
      assert ExpireBut(before, {}, now).pools == Expire(before, now).pools;
    }

    // ----- the release worker -----

    /** ZRANGEBYSCORE with a limit. */
    method DueBatch(limit: nat, now: Time) returns (batch: seq<Id>)
      ensures IsBatch(Snapshot(), batch, limit, now)
    {
      var due := set id | id in sealed && 0.0 <= sealed[id] <= now;
      var left := due;
      batch := [];
      while |batch| < limit && left != {}
        invariant left <= due && |batch| + |left| == |due| && |batch| <= limit
        invariant forall id :: id in due <==> id in left || id in batch
        invariant forall i :: 0 <= i < |batch| ==> batch[i] in due && batch[i] !in left
        invariant forall i, id :: 0 <= i < |batch| && id in left ==> sealed[batch[i]] <= sealed[id]
        invariant forall i, j :: 0 <= i < j < |batch| ==> batch[i] != batch[j] && sealed[batch[i]] <= sealed[batch[j]]
        decreases left
      {
        LeastScore(left, sealed);
        var id :| id in left && forall x :: x in left ==> sealed[id] <= sealed[x];
        batch := batch + [id];
        left := left - {id};
      }
    }

    method ReleaseLetter(id: Id, now: Time) returns (released: bool)
      modifies this`letters, this`sealed, this`pools
      ensures Snapshot() == ReleaseOne(old(Snapshot()), id, now)
      ensures released <==> id in old(letters) && old(letters)[id].status == SEALED && old(letters)[id].releaseAt <= now
    {
      released := false;
      if id !in letters {
        sealed := sealed - {id};
      } else if letters[id].status != SEALED {
        sealed := sealed - {id};
      } else if letters[id].releaseAt <= now {
        letters := letters[id := letters[id].(status := AVAILABLE)];
        AddToAvailablePools(id);
        sealed := sealed - {id};
        released := true;
      }
    }

    method ProcessDueLetters(limit: nat, now: Time) returns (released: nat, ghost batch: seq<Id>)
      requires Valid() && 0.0 <= now
      modifies this
      ensures IsBatch(old(Snapshot()), batch, limit, now)
      ensures Valid() && Snapshot() == LetterStep(old(Snapshot()), ReleaseCall(batch), now)
      ensures released == |ReleasedBetween(old(Snapshot()), Snapshot())|
    {
      var ids := DueBatch(limit, now);
      batch := ids;
      LetterStepKeeps(Snapshot(), ReleaseCall(batch), now);
      released := ReleaseIds(ids, now);
      clock := now;
    }

    method ReleaseIds(ids: seq<Id>, now: Time) returns (released: nat)
      modifies this`letters, this`sealed, this`pools
      ensures Snapshot() == ReleaseAll(old(Snapshot()), ids, now)
      ensures released == |ReleasedBetween(old(Snapshot()), Snapshot())|
    {
      ghost var before := Snapshot();
      released := 0;
      assert ReleasedBetween(before, before) == {};
      for i := 0 to |ids|
        invariant Snapshot() == ReleaseAll(before, ids[..i], now)
        invariant released == |ReleasedBetween(before, Snapshot())|
      {
        assert ids[..i + 1][..i] == ids[..i];
        var id := ids[i];
        var hit := ReleaseLetter(id, now);
        ReleaseCounts(before, ids[..i], id, now);
        if hit {
          released := released + 1;
        }
      }
      assert ids[..|ids|] == ids;
    }

    // ----- salvage -----

    /** The conditional update, the quota, the identities, and commit with index
        removal or rollback. */
    method ClaimLetter(u: Id, id: Id, limit: int, drawn: bool, now: Time) returns (won: bool)
      requires Claimable(Snapshot(), u, id)
      modifies this
      ensures Snapshot() == Claim(old(Snapshot()), u, id, limit, drawn, now)
      ensures won <==> Affordable(old(Snapshot()), u, limit, now) && drawn
    {
      clock := now;
      var row := letters[id];
      letters := letters[id := row.(status := SALVAGED, salvagedBy := Some(u), salvagedAt := Some(now),
                                    destroyAt := Some(now + DAY))];
      won := Admits(quota, Request(u, limit, now), DAY);
      quota := Serve(quota, Request(u, limit, now), DAY);
      won := won && drawn;
      if won {
        RemoveFromAvailablePools(id);
      } else {
        letters := letters[id := row];
        assert letters == old(letters);
      }
    }

    /** The call's own emotion and city, or else the user's, name the pools. */
    method SalvageLetter(u: Id, emotion: string, city: string, limit: int, identities: bool, now: Time)
      returns (outcome: SalvageOutcome, ghost drawn: seq<seq<Id>>, ghost scrubbed: seq<Id>)
      requires Valid()
      modifies this
      ensures Valid()
      ensures var own := AccountOf(old(Snapshot()), u);
        IsTrace(old(Snapshot()), ScrubAll(old(Snapshot()), scrubbed), u,
                OrderedMatchKeys(OrOwn(emotion, own.emotion), OrOwn(city, own.city)), drawn, Found(outcome))
      ensures outcome.Nothing? ==>
        letters == old(letters) && quota == old(quota)
        && forall e :: e in old(pools) && e !in pools ==> !Available(old(Snapshot()), e.1)
      ensures !outcome.Nothing? ==>
        var id := outcome.letter;
        && Good(old(Snapshot()), u, id)
        && (outcome.Won? <==> Wins(old(Snapshot()), u, id, limit, identities, now))
        && (outcome.QuotaExceeded? <==> !Affordable(old(Snapshot()), u, limit, now))
        && (forall i :: 0 <= i < |scrubbed| ==> !Available(old(Snapshot()), scrubbed[i]))
        && Snapshot() == Claim(ScrubAll(old(Snapshot()), scrubbed), u, id, limit, identities, now)
      ensures forall x :: PoolOf(old(Snapshot()), All) == {x} && Good(old(Snapshot()), u, x) ==> Found(outcome) == Some(x)
    {
      ghost var before := Snapshot();
      var own := if u in accounts then accounts[u] else Account(Active, None, clock, "", "");
      var keys := OrderedMatchKeys(OrOwn(emotion, own.emotion), OrOwn(city, own.city));
      outcome, drawn, scrubbed := DrawAndClaim(u, keys, limit, identities, now);
      ScrubAllScrubs(before, scrubbed);
      ScrubAllKeeps(before, scrubbed);
      if !outcome.Nothing? {
        ClaimKeeps(ScrubAll(before, scrubbed), u, outcome.letter, limit, identities, now);
      }
      forall x | PoolOf(before, All) == {x} && Good(before, u, x)
        ensures Found(outcome) == Some(x)
      {
        TheOnlyLetter(before, ScrubAll(before, scrubbed), u, keys, drawn, Found(outcome), x);
      }
    }

    /** The pools in turn, until a letter is found. Whatever is drawn, the call is a
        series of scrubs of dead ids followed by at most one claim of a good letter. */
    method DrawAndClaim(u: Id, keys: seq<PoolKey>, limit: int, identities: bool, now: Time)
      returns (outcome: SalvageOutcome, ghost drawn: seq<seq<Id>>, ghost scrubbed: seq<Id>)
      requires LettersSound(Snapshot())
      modifies this
      ensures IsTrace(old(Snapshot()), ScrubAll(old(Snapshot()), scrubbed), u, keys, drawn, Found(outcome))
      ensures Drew(old(Snapshot()), Snapshot(), u, outcome, scrubbed, limit, identities, now)
    {
      ghost var before := Snapshot();
      scrubbed, drawn, outcome := [], [], Nothing;
      var tried: set<Id> := {};
      for k := 0 to |keys|
        invariant outcome == Nothing && |drawn| == k
        invariant AllDead(before, scrubbed) && Snapshot() == ScrubAll(before, scrubbed)
        invariant LettersSound(Snapshot()) && TriedOk(Snapshot(), u, tried)
        invariant forall j :: 0 <= j < k ==> IsRow(before, Snapshot(), u, keys[j], drawn[j], None)
      {
        ghost var mid := Snapshot();
        ghost var row, more;
        outcome, tried, row, more := DrawFromPool(u, keys[k], tried, limit, identities, now);
        DrawsAdd(before, scrubbed, more);
        DrewAfter(before, mid, Snapshot(), u, outcome, scrubbed, more, limit, identities, now);
        TraceGrows(before, mid, ScrubAll(mid, more), u, keys, drawn, row, Found(outcome));
        drawn, scrubbed := drawn + [row], scrubbed + more;
        if !outcome.Nothing? {
          return;
        }
        ScrubAllKeeps(mid, more);
      }
    }

    /** The draws from one pool, and the claim if they find a letter. */
    method DrawFromPool(u: Id, key: PoolKey, tried: set<Id>, limit: int, identities: bool, now: Time)
      returns (outcome: SalvageOutcome, seen: set<Id>, ghost row: seq<Id>, ghost scrubbed: seq<Id>)
      requires LettersSound(Snapshot()) && TriedOk(Snapshot(), u, tried)
      modifies this
      ensures IsRow(old(Snapshot()), ScrubAll(old(Snapshot()), scrubbed), u, key, row, Found(outcome))
      ensures Drew(old(Snapshot()), Snapshot(), u, outcome, scrubbed, limit, identities, now)
      ensures outcome.Nothing? ==> TriedOk(Snapshot(), u, seen)
    {
      ghost var before := Snapshot();
      var candidate: Option<Id>;
      outcome := Nothing;
      candidate, seen, row, scrubbed := DrawCandidate(u, key, tried);
      if candidate.Some? {
        ghost var mid := Snapshot();
        outcome := TakeLetter(u, candidate.value, limit, identities, now);
        DrewClaim(before, mid, u, candidate.value, scrubbed, outcome, limit, identities, now);
      }
    }

    /** Up to twenty random draws from one pool. */
    method DrawCandidate(u: Id, key: PoolKey, tried: set<Id>)
      returns (candidate: Option<Id>, seen: set<Id>, ghost row: seq<Id>, ghost scrubbed: seq<Id>)
      requires LettersSound(Snapshot()) && TriedOk(Snapshot(), u, tried)
      modifies this`pools
      ensures AllDead(old(Snapshot()), scrubbed) && Snapshot() == ScrubAll(old(Snapshot()), scrubbed)
      ensures IsRow(old(Snapshot()), Snapshot(), u, key, row, candidate)
      ensures candidate.None? ==> TriedOk(Snapshot(), u, seen)
      ensures candidate.Some? ==> Good(Snapshot(), u, candidate.value)
    {
      ghost var before := Snapshot();
      seen, row, scrubbed, candidate := tried, [], [], None;
      var draws := 0;
      DrawingStarts(before, u, key, tried);
      while draws < DRAWS_PER_POOL
        invariant draws == |row| <= DRAWS_PER_POOL
        invariant Drawing(before, Snapshot(), u, key, row, seen, scrubbed)
      {
        var pool := set e | e in pools && e.0 == key :: e.1;
        if pool == {} {
          break;
        }
        Inhabited(pool);
        var id :| id in pool;
        draws := draws + 1;
        DrawingOn(before, Snapshot(), u, key, row, seen, scrubbed, id);
        if id !in seen {
          if id !in letters || letters[id].status != AVAILABLE {
            ScrubDead(id);
            scrubbed := scrubbed + [id];
          } else {
            var wanted := IsWanted(u, id);
            if wanted {
              DrawingFinds(before, Snapshot(), u, key, row, seen, scrubbed, id);
              candidate, row := Some(id), row + [id];
              return;
            }
          }
        }
        row, seen := row + [id], seen + {id};
      }
      DrawingEnds(before, Snapshot(), u, key, row, seen, scrubbed);
    }

    /** Of another author, and no block between the two. */
    method IsWanted(u: Id, id: Id) returns (wanted: bool)
      requires Available(Snapshot(), id)
      ensures wanted <==> Good(Snapshot(), u, id)
    {
      var author := letters[id].author;
      wanted := author != u && (author, u) !in blocks && (u, author) !in blocks;
    }

    method TakeLetter(u: Id, id: Id, limit: int, identities: bool, now: Time) returns (outcome: SalvageOutcome)
      requires Claimable(Snapshot(), u, id)
      modifies this
      ensures Snapshot() == Claim(old(Snapshot()), u, id, limit, identities, now)
      ensures outcome == TakenAs(old(Snapshot()), u, id, limit, identities, now)
    {
      var affordable := Admits(quota, Request(u, limit, now), DAY);
      var won := ClaimLetter(u, id, limit, identities, now);
      outcome := if won then Won(id) else if affordable then IdentityFailed(id) else QuotaExceeded(id);
    }

    method ScrubDead(id: Id)
      requires !Available(Snapshot(), id)
      modifies this`pools
      ensures Snapshot() == Scrub(old(Snapshot()), id)
    {
      if id in letters {
        RemoveFromAvailablePools(id);
      }
    }

    // ----- the dormancy worker -----

    /** Puts every lapsed user to sleep and deletes the daily counters. */
    method SleepUsers(now: Time) returns (changed: nat)
      requires Valid() && 0.0 <= now
      modifies this
      ensures Valid() && Snapshot() == LetterStep(old(Snapshot()), SleepCall, now)
      ensures changed == |LapsedUsers(old(Snapshot()), now)|
    {
      ghost var w := Snapshot();
      LetterStepKeeps(w, SleepCall, now);
      changed := SleepRows(now);
      clock := now;
      assert Snapshot() == LetterStep(w, SleepCall, now);
    }

    method SleepRows(now: Time) returns (changed: nat)
      modifies this`accounts, this`quota, this`posts
      ensures Snapshot().(clock := now) == PutToSleep(old(Snapshot()), now)
      ensures changed == |LapsedUsers(old(Snapshot()), now)|
    {
      ghost var before := Snapshot();
      var todo := set u | u in accounts && Lapsed(accounts[u], now);
      ghost var rows := todo;
      changed := |todo|;
      SleepNone(before, rows, now);
      while todo != {}
        invariant todo <= rows && Snapshot() == Asleep(before, rows - todo, now)
        decreases todo
      {
        Inhabited(todo);
        var u :| u in todo;
        SleepMore(before, rows, todo, u, now);
        SleepUser(u, now);
        todo := todo - {u};
      }
      SleepAll(before, rows, now);
    }

    method SleepUser(u: Id, now: Time)
      requires u in accounts
      modifies this`accounts, this`quota, this`posts
      ensures Snapshot() == SleepOne(old(Snapshot()), u, now)
    {
      accounts := accounts[u := accounts[u].(status := Dormant)];
      quota := Drop(quota, {u}, now);
      posts := Drop(posts, {u}, now);
    }
  }

  /** The world with the users of `done` asleep. */
  ghost function Asleep(w: LetterWorld, done: set<Id>, now: Time): LetterWorld {
    w.(accounts := map u | u in w.accounts :: if u in done then w.accounts[u].(status := Dormant) else w.accounts[u],
       quota := Drop(w.quota, done, now),
       posts := Drop(w.posts, done, now))
  }

  ghost function SleepOne(w: LetterWorld, u: Id, now: Time): LetterWorld
    requires u in w.accounts
  {
    w.(accounts := w.accounts[u := w.accounts[u].(status := Dormant)],
       quota := Drop(w.quota, {u}, now),
       posts := Drop(w.posts, {u}, now))
  }

  lemma SleepAll(w: LetterWorld, rows: set<Id>, now: Time)
    requires rows == LapsedUsers(w, now)
    ensures Asleep(w, rows - {}, now).(clock := now) == PutToSleep(w, now)
  {
    assert rows - {} == rows;
    assert Asleep(w, rows, now).accounts == PutToSleep(w, now).accounts;
  }

  lemma SleepNone(w: LetterWorld, rows: set<Id>, now: Time)
    ensures Asleep(w, rows - rows, now) == w
  {
    assert rows - rows == {};
    DropNone(w.quota, now);
    DropNone(w.posts, now);
    assert Asleep(w, {}, now).accounts == w.accounts;
  }

  lemma SleepMore(w: LetterWorld, rows: set<Id>, todo: set<Id>, u: Id, now: Time)
    requires u in todo && todo <= rows && u in w.accounts
    ensures u in Asleep(w, rows - todo, now).accounts
    ensures Asleep(w, rows - (todo - {u}), now) == SleepOne(Asleep(w, rows - todo, now), u, now)
  {
    var done := rows - todo;
    assert rows - (todo - {u}) == done + {u};
    DropMore(w.quota, done, u, now);
    DropMore(w.posts, done, u, now);
    var w1 := Asleep(w, done, now);
    assert Asleep(w, done + {u}, now).accounts == w1.accounts[u := w1.accounts[u].(status := Dormant)];
  }

  lemma DropNone(s: Counters<Id>, now: Time)
    ensures Drop(s, {}, now) == s
  {
    assert Drop(s, {}, now).live == s.live && Drop(s, {}, now).drops == s.drops;
  }

  lemma DropMore(s: Counters<Id>, keys: set<Id>, u: Id, now: Time)
    requires u !in keys
    ensures Drop(Drop(s, keys, now), {u}, now) == Drop(s, keys + {u}, now)
  {
    var s1, s2 := Drop(Drop(s, keys, now), {u}, now), Drop(s, keys + {u}, now);
    assert s1.live == s2.live;
    assert s1.drops == s2.drops;
  }

  lemma ReleaseCounts(before: LetterWorld, done: seq<Id>, id: Id, now: Time)
    ensures var mid := ReleaseAll(before, done, now);
      var after := ReleaseOne(mid, id, now);
      |ReleasedBetween(before, after)| == |ReleasedBetween(before, mid)|
        + if id in mid.letters && mid.letters[id].status == SEALED && mid.letters[id].releaseAt <= now then 1 else 0
  {
    var mid := ReleaseAll(before, done, now);
    var after := ReleaseOne(mid, id, now);
    ReleaseAllQuiet(before, done, now);
    if id in mid.letters && mid.letters[id].status == SEALED && mid.letters[id].releaseAt <= now {
      ReleaseAllLetters(before, done, now, id);
      assert ReleasedBetween(before, after) == ReleasedBetween(before, mid) + {id};
      assert id !in ReleasedBetween(before, mid);
    } else {
      assert ReleasedBetween(before, after) == ReleasedBetween(before, mid);
    }
  }
}
