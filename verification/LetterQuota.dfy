/** How many letters a user can write and salvage in any day-long interval, with
    the deletions of the daily counters by the dormancy worker. */
module LetterQuota {
  import opened Basics
  import opened RateLimit
  import opened LetterModel
  import opened LetterInvariant
  import opened LetterFlow

  // ----- salvages and letters against admissions -----

  /** The letters a user salvaged in an interval. */
  ghost function SalvagedBy(w: LetterWorld, u: Id, from: Time, to: Time): set<Id> {
    set id | id in w.letters && w.letters[id].salvagedBy == Some(u) && w.letters[id].salvagedAt.Some?
             && from <= w.letters[id].salvagedAt.value < to
  }

  /** The letters a user wrote in an interval. */
  ghost function WrittenBy(w: LetterWorld, u: Id, from: Time, to: Time): set<Id> {
    set id | id in w.letters && w.letters[id].author == u && from <= w.letters[id].createdAt < to
  }

  /** Every salvage and every letter has its own admitted call of the same user at
      the same time; a call whose work was rolled back has none. */
  ghost predicate Ledger(w: LetterWorld) {
    && (forall u, from, to :: |SalvagedBy(w, u, from, to)| <= CountWithin(w.quota.admitted, u, from, to))
    && (forall u, from, to :: |WrittenBy(w, u, from, to)| <= CountWithin(w.posts.admitted, u, from, to))
  }

  /** Neither author, writing time nor salvage of any letter differs. */
  ghost predicate Quiet(w: LetterWorld, w1: LetterWorld) {
    && w1.letters.Keys == w.letters.Keys
    && (forall id :: id in w.letters ==>
          && w1.letters[id].author == w.letters[id].author && w1.letters[id].createdAt == w.letters[id].createdAt
          && w1.letters[id].salvagedBy == w.letters[id].salvagedBy
          && w1.letters[id].salvagedAt == w.letters[id].salvagedAt)
  }

  lemma QuietSets(w: LetterWorld, w1: LetterWorld, u: Id, from: Time, to: Time)
    requires Quiet(w, w1)
    ensures SalvagedBy(w1, u, from, to) == SalvagedBy(w, u, from, to)
    ensures WrittenBy(w1, u, from, to) == WrittenBy(w, u, from, to)
  {
    forall id
      ensures id in SalvagedBy(w1, u, from, to) <==> id in SalvagedBy(w, u, from, to)
      ensures id in WrittenBy(w1, u, from, to) <==> id in WrittenBy(w, u, from, to)
    {
      assert id in w1.letters.Keys <==> id in w.letters.Keys;
      assert id in w.letters ==> w1.letters[id].salvagedBy == w.letters[id].salvagedBy;
    }
  }

  lemma LedgerKept(w: LetterWorld, w1: LetterWorld)
    requires Ledger(w) && Quiet(w, w1)
    requires w1.quota.admitted == w.quota.admitted && w1.posts.admitted == w.posts.admitted
    ensures Ledger(w1)
  {
    forall u, from, to
      ensures SalvagedBy(w1, u, from, to) == SalvagedBy(w, u, from, to)
      ensures WrittenBy(w1, u, from, to) == WrittenBy(w, u, from, to)
    {
      QuietSets(w, w1, u, from, to);
    }
  }

  /** One more admitted call pays for one more letter. */
  lemma PaidFor(before: set<Id>, after: set<Id>, id: Id, log: seq<Admission<Id>>, e: Admission<Id>, u: Id, from: Time, to: Time)
    requires |before| <= CountWithin(log, u, from, to)
    requires after <= before + {id} && (after <= before || Within(u, from, to)(e))
    ensures |after| <= CountWithin(log + [e], u, from, to)
  {
    CountAppend(log, e, Within(u, from, to));
    if after <= before {
      SubsetCount(after, before);
    } else {
      SubsetCount(after, before + {id});
    }
  }

  lemma ClaimLedger(w: LetterWorld, u: Id, id: Id, limit: int, drawn: bool, now: Time)
    requires Ledger(w)
    ensures Ledger(Claim(w, u, id, limit, drawn, now))
  {
    var w1 := Claim(w, u, id, limit, drawn, now);
    forall v, from, to
      ensures |SalvagedBy(w1, v, from, to)| <= CountWithin(w1.quota.admitted, v, from, to)
      ensures |WrittenBy(w1, v, from, to)| <= CountWithin(w1.posts.admitted, v, from, to)
    {
      assert WrittenBy(w1, v, from, to) == WrittenBy(w, v, from, to);
      if Claimable(w, u, id) && Affordable(w, u, limit, now) {
        PaidFor(SalvagedBy(w, v, from, to), SalvagedBy(w1, v, from, to), id, w.quota.admitted,
                Admitted(w.quota, Request(u, limit, now), DAY), v, from, to);
      } else {
        assert SalvagedBy(w1, v, from, to) == SalvagedBy(w, v, from, to);
      }
    }
  }

  lemma CreateLedger(w: LetterWorld, d: Draft, now: Time)
    requires Ledger(w) && LettersOk(w)
    ensures Ledger(Create(w, d, now))
  {
    var w1 := Create(w, d, now);
    assert w.nextLetter !in w.letters;
    forall v, from, to
      ensures |SalvagedBy(w1, v, from, to)| <= CountWithin(w1.quota.admitted, v, from, to)
      ensures |WrittenBy(w1, v, from, to)| <= CountWithin(w1.posts.admitted, v, from, to)
    {
      assert SalvagedBy(w1, v, from, to) == SalvagedBy(w, v, from, to);
      if WellFormed(d) && Postable(w, d, now) {
        PaidFor(WrittenBy(w, v, from, to), WrittenBy(w1, v, from, to), w.nextLetter, w.posts.admitted,
                Admitted(w.posts, Request(d.author, d.limit, now), DAY), v, from, to);
      } else {
        assert WrittenBy(w1, v, from, to) == WrittenBy(w, v, from, to);
      }
    }
  }

  lemma {:induction false} ReleaseAllQuiet(w: LetterWorld, batch: seq<Id>, now: Time)
    ensures var w1 := ReleaseAll(w, batch, now);
      w1.quota == w.quota && w1.posts == w.posts && w1.letters.Keys == w.letters.Keys
  {
    if batch != [] {
      ReleaseAllQuiet(w, batch[..|batch| - 1], now);
    }
  }

  lemma ReleaseQuiet(w: LetterWorld, batch: seq<Id>, now: Time)
    ensures Quiet(w, Release(w, batch, now))
    ensures Release(w, batch, now).quota == w.quota && Release(w, batch, now).posts == w.posts
  {
    ReleaseAllQuiet(w, batch, now);
    forall id | id in w.letters
      ensures var w1 := Release(w, batch, now);
        && id in w1.letters && w1.letters[id].author == w.letters[id].author
        && w1.letters[id].createdAt == w.letters[id].createdAt
        && w1.letters[id].salvagedBy == w.letters[id].salvagedBy && w1.letters[id].salvagedAt == w.letters[id].salvagedAt
    {
      ReleaseAllLetters(w, batch, now, id);
    }
  }

  /** Calls that neither write, salvage nor put users to sleep. */
  lemma StepQuiet(w: LetterWorld, c: LetterCall, now: Time)
    requires !c.ClaimCall? && !c.CreateCall? && !c.SleepCall?
    ensures Quiet(w, LetterStep(w, c, now))
    ensures LetterStep(w, c, now).quota == w.quota && LetterStep(w, c, now).posts == w.posts
  {
    if c.ReleaseCall? {
      ReleaseQuiet(w, c.batch, now);
    }
  }

  // ----- the invariant over runs -----

  ghost predicate QuotaSound(w: LetterWorld, limits: Limits) {
    Ledger(w) && CountersSound(w, limits, w.clock)
  }

  lemma SoundLater(s: Counters<Id>, limit: nat, clock: Time, now: Time)
    requires RateLimit.Sound(s, limit, DAY, clock) && clock <= now
    ensures RateLimit.Sound(s, limit, DAY, now)
  {
    forall key | key in s.live
      ensures Running(s, key, DAY, now)
    {
      assert Running(s, key, DAY, clock);
    }
  }

  /** Both counters are sound at a later clock. */
  ghost predicate CountersSound(w: LetterWorld, limits: Limits, clock: Time) {
    RateLimit.Sound(w.quota, limits.salvages, DAY, clock) && RateLimit.Sound(w.posts, limits.posts, DAY, clock)
  }

  lemma CountersLater(w: LetterWorld, limits: Limits, now: Time)
    requires CountersSound(w, limits, w.clock) && w.clock <= now
    ensures CountersSound(w, limits, now)
  {
    SoundLater(w.quota, limits.salvages, w.clock, now);
    SoundLater(w.posts, limits.posts, w.clock, now);
  }

  lemma ClaimCounters(w: LetterWorld, u: Id, id: Id, limit: int, drawn: bool, now: Time)
    ensures var w1 := Claim(w, u, id, limit, drawn, now);
      w1.posts == w.posts && w1.quota == if Claimable(w, u, id) then Serve(w.quota, Request(u, limit, now), DAY) else w.quota
  {
  }

  lemma ClaimQuota(w: LetterWorld, u: Id, id: Id, limit: int, drawn: bool, now: Time, limits: Limits)
    requires QuotaSound(w, limits) && w.clock <= now && limit <= limits.salvages
    ensures QuotaSound(Claim(w, u, id, limit, drawn, now), limits)
  {
    CountersLater(w, limits, now);
    ClaimCounters(w, u, id, limit, drawn, now);
    ClaimLedger(w, u, id, limit, drawn, now);
    ServeSound(w.quota, limits.salvages, DAY, w.clock, Request(u, limit, now));
  }

  lemma CreateCounters(w: LetterWorld, d: Draft, now: Time)
    ensures var w1 := Create(w, d, now);
      w1.quota == w.quota && w1.posts == if WellFormed(d) then Serve(w.posts, Request(d.author, d.limit, now), DAY) else w.posts
  {
  }

  lemma CreateQuota(w: LetterWorld, d: Draft, now: Time, limits: Limits)
    requires LettersOk(w) && QuotaSound(w, limits) && w.clock <= now && d.limit <= limits.posts
    ensures QuotaSound(Create(w, d, now), limits)
  {
    CountersLater(w, limits, now);
    CreateCounters(w, d, now);
    CreateLedger(w, d, now);
    ServeSound(w.posts, limits.posts, DAY, w.clock, Request(d.author, d.limit, now));
  }

  lemma SleepQuota(w: LetterWorld, now: Time, limits: Limits)
    requires QuotaSound(w, limits) && w.clock <= now
    ensures QuotaSound(PutToSleep(w, now), limits)
  {
    LedgerKept(w, PutToSleep(w, now));
    DropSound(w.quota, limits.salvages, DAY, w.clock, LapsedUsers(w, now), now);
    DropSound(w.posts, limits.posts, DAY, w.clock, LapsedUsers(w, now), now);
  }

  lemma QuietQuota(w: LetterWorld, c: LetterCall, now: Time, limits: Limits)
    requires QuotaSound(w, limits) && w.clock <= now && !c.ClaimCall? && !c.CreateCall? && !c.SleepCall?
    ensures QuotaSound(LetterStep(w, c, now), limits)
  {
    StepQuiet(w, c, now);
    LedgerKept(w, LetterStep(w, c, now));
    CountersLater(w, limits, now);
    StepClock(w, c, now);
  }

  lemma QuotaStep(w: LetterWorld, c: LetterCall, now: Time, limits: Limits)
    requires LettersOk(w) && QuotaSound(w, limits) && w.clock <= now && WithinLimits(c, limits)
    ensures QuotaSound(LetterStep(w, c, now), limits)
  {
    if c.ClaimCall? {
      ClaimQuota(w, c.u, c.id, c.limit, c.drawn, now, limits);
    } else if c.CreateCall? {
      CreateQuota(w, c.draft, now, limits);
    } else if c.SleepCall? {
      SleepQuota(w, now, limits);
    } else {
      QuietQuota(w, c, now, limits);
    }
  }

  lemma LimitedTail(h: LetterHistory, limits: Limits)
    requires h != [] && LimitedTo(h, limits)
    ensures WithinLimits(h[0].1, limits) && LimitedTo(h[1..], limits)
  {
    assert forall i :: 0 <= i < |h[1..]| ==> h[1..][i] == h[i + 1];
  }

  lemma {:induction false} QuotaRun(w: LetterWorld, h: LetterHistory, limits: Limits)
    requires LettersSound(w) && QuotaSound(w, limits) && 0.0 <= w.clock
    requires LetterTimely(h, w.clock) && LimitedTo(h, limits)
    ensures LettersSound(LetterRun(w, h)) && QuotaSound(LetterRun(w, h), limits)
    decreases |h|
  {
    if h != [] {
      LimitedTail(h, limits);
      QuotaStep(w, h[0].1, h[0].0, limits);
      LetterStepKeeps(w, h[0].1, h[0].0);
      StepClock(w, h[0].1, h[0].0);
      QuotaRun(LetterStep(w, h[0].1, h[0].0), h[1..], limits);
    }
  }

  /** How many calls a limit admits in a day that saw `k` deletions of the counter. */
  function DayBound(limit: nat, k: nat): nat {
    if limit == 0 then 0 else (k + 2) * limit - 1
  }

  lemma EmptyQuota(limits: Limits)
    ensures LettersSound(EmptyLetters) && QuotaSound(EmptyLetters, limits)
  {
    assert forall u, from, to :: SalvagedBy(EmptyLetters, u, from, to) == {} && WrittenBy(EmptyLetters, u, from, to) == {};
  }

  lemma DayBounds(w: LetterWorld, limits: Limits, u: Id, from: Time)
    requires QuotaSound(w, limits)
    ensures |SalvagedBy(w, u, from, from + 86400.0)| <= DayBound(limits.salvages, DropsWithin(w.quota, u, from, from + 86400.0))
    ensures |WrittenBy(w, u, from, from + DAY)| <= DayBound(limits.posts, DropsWithin(w.posts, u, from, from + DAY))
  {
    IntervalBound(w.quota, u, from, limits.salvages, DAY, w.clock);
    IntervalBound(w.posts, u, from, limits.posts, DAY, w.clock);
  }

  /** In every run within the limits: what a user salvages in any interval of one
      day is bounded by the limit and by how often the user's counter was deleted
      in it. */
  lemma DailySalvageBound(h: LetterHistory, limits: Limits, u: Id, from: Time)
    requires LetterTimely(h, 0.0) && LimitedTo(h, limits)
    ensures var w := LetterRun(EmptyLetters, h);
      |SalvagedBy(w, u, from, from + 86400.0)| <= DayBound(limits.salvages, DropsWithin(w.quota, u, from, from + 86400.0))
  {
    EmptyQuota(limits);
    QuotaRun(EmptyLetters, h, limits);
    DayBounds(LetterRun(EmptyLetters, h), limits, u, from);
  }

  /** The same for the letters a user writes. */
  lemma DailyLetterBound(h: LetterHistory, limits: Limits, u: Id, from: Time)
    requires LetterTimely(h, 0.0) && LimitedTo(h, limits)
    ensures var w := LetterRun(EmptyLetters, h);
      |WrittenBy(w, u, from, from + 86400.0)| <= DayBound(limits.posts, DropsWithin(w.posts, u, from, from + 86400.0))
  {
    EmptyQuota(limits);
    QuotaRun(EmptyLetters, h, limits);
    DayBounds(LetterRun(EmptyLetters, h), limits, u, from);
  }

  // ----- when a counter is deleted -----

  /** A call deletes a user's counters exactly if it is a pass of the dormancy
      worker that finds the user active and not logged in for a week. */
  lemma SleepDeletesExactly(w: LetterWorld, c: LetterCall, now: Time, u: Id)
    ensures var w1 := LetterStep(w, c, now);
      && (DropsOf(w1.quota, u) != DropsOf(w.quota, u) <==> c.SleepCall? && u in w.accounts && Lapsed(w.accounts[u], now))
      && (DropsOf(w1.quota, u) == DropsOf(w.quota, u) || DropsOf(w1.quota, u) == DropsOf(w.quota, u) + [now])
      && (DropsOf(w1.posts, u) != DropsOf(w.posts, u) <==> DropsOf(w1.quota, u) != DropsOf(w.quota, u))
  {
    if c.SleepCall? {
      DropKey(w.quota, LapsedUsers(w, now), now, u);
      DropKey(w.posts, LapsedUsers(w, now), now, u);
    } else if !c.ClaimCall? && !c.CreateCall? {
      StepQuiet(w, c, now);
    }
  }

  /** Who is put to sleep: the active, a week after joining and a week after the
      last login, if there was one; and nobody's account changes otherwise. */
  lemma SleepOutcome(w: LetterWorld, now: Time, u: Id)
    requires u in w.accounts
    ensures var w1, a := PutToSleep(w, now), w.accounts[u];
      var lapsed := a.status == Active && now > a.createdAt + 604800.0
                    && (a.lastLogin.Some? ==> now > a.lastLogin.value + 604800.0);
      && u in w1.accounts && w1.accounts[u] == (if lapsed then a.(status := Dormant) else a)
      && w1.letters == w.letters && w1.pools == w.pools && w1.sealed == w.sealed
  {
  }

  /** What the other account calls write. */
  lemma AccountOutcome(w: LetterWorld, c: LetterCall, now: Time, u: Id)
    requires c.RegisterCall? || c.LogInCall? || c.AccountCall? || c.ProfileCall?
    ensures var w1 := LetterStep(w, c, now);
      && (u in w1.accounts <==> u in w.accounts || (c.RegisterCall? && c.u == u))
      && (u in w.accounts ==> w1.accounts[u] == if c.u != u then w.accounts[u] else
            match c
            case RegisterCall(_, _, _) => w.accounts[u]
            case LogInCall(_) => w.accounts[u].(lastLogin := Some(now))
            case AccountCall(_, status) => w.accounts[u].(status := status)
            case ProfileCall(_, emotion, city) => w.accounts[u].(emotion := emotion, city := city))
      && (u !in w.accounts && c.RegisterCall? && c.u == u ==> w1.accounts[u] == Account(Active, c.lastLogin, now, "", c.city))
  {
  }

  ghost predicate LoggedInSince(w: LetterWorld, u: Id, t: Time) {
    u in w.accounts && w.accounts[u].lastLogin.Some? && t <= w.accounts[u].lastLogin.value
  }

  lemma {:induction false} ReleaseAllAccounts(w: LetterWorld, batch: seq<Id>, now: Time)
    ensures ReleaseAll(w, batch, now).accounts == w.accounts
  {
    if batch != [] {
      ReleaseAllAccounts(w, batch[..|batch| - 1], now);
    }
  }

  lemma LoginKept(w: LetterWorld, c: LetterCall, now: Time, u: Id, t: Time)
    requires LoggedInSince(w, u, t) && t <= now
    ensures LoggedInSince(LetterStep(w, c, now), u, t)
  {
    if c.ReleaseCall? {
      ReleaseAllAccounts(w, c.batch, now);
    }
  }

  /** For a week after a login no counter of the user is deleted. */
  lemma {:induction false} LoginProtects(w: LetterWorld, h: LetterHistory, u: Id, t: Time)
    requires LoggedInSince(w, u, t) && t <= w.clock && LetterTimely(h, w.clock)
    requires forall i :: 0 <= i < |h| ==> h[i].0 <= t + 604800.0
    ensures DropsOf(LetterRun(w, h).quota, u) == DropsOf(w.quota, u)
    ensures DropsOf(LetterRun(w, h).posts, u) == DropsOf(w.posts, u)
    decreases |h|
  {
    if h != [] {
      var c, now := h[0].1, h[0].0;
      assert forall i :: 0 <= i < |h[1..]| ==> h[1..][i] == h[i + 1];
      LoginKept(w, c, now, u, t);
      StepClock(w, c, now);
      SleepDeletesExactly(w, c, now, u);
      LoginProtects(LetterStep(w, c, now), h[1..], u, t);
    }
  }

  /** So within a week after a login the bound is 2 * limit - 1 on both counters. */
  lemma BoundAfterLogin(w: LetterWorld, h: LetterHistory, limits: Limits, u: Id, t: Time, from: Time)
    requires LettersSound(w) && QuotaSound(w, limits) && 0.0 <= w.clock <= t < from && u in w.accounts
    requires LetterTimely(h, t) && LimitedTo(h, limits)
    requires forall i :: 0 <= i < |h| ==> h[i].0 <= t + 604800.0
    ensures var w1 := LetterRun(LogIn(w, u, t), h);
      && |SalvagedBy(w1, u, from, from + DAY)| <= DayBound(limits.salvages, 0)
      && |WrittenBy(w1, u, from, from + DAY)| <= DayBound(limits.posts, 0)
  {
    var w0 := LogIn(w, u, t);
    LetterStepKeeps(w, LogInCall(u), t);
    QuotaStep(w, LogInCall(u), t, limits);
    QuotaRun(w0, h, limits);
    LoginProtects(w0, h, u, t);
    var w1 := LetterRun(w0, h);
    NoDropsAfter(w0.quota, u, t, from, limits.salvages);
    NoDropsAfter(w0.posts, u, t, from, limits.posts);
    DayBounds(w1, limits, u, from);
  }

  lemma NoDropsAfter(s: Counters<Id>, u: Id, t: Time, from: Time, limit: nat)
    requires RateLimit.Sound(s, limit, DAY, t) && t < from
    ensures Count(DropsOf(s, u), Between(from, from + DAY)) == 0
  {
    CountNone(DropsOf(s, u), Between(from, from + DAY));
  }

  // ----- one deletion is enough for twice the limit -----

  /** Salvages of the given letters, one after the other, at one time. */
  function Claims(u: Id, ids: seq<Id>, limit: int, at: Time): LetterHistory {
    seq(|ids|, i requires 0 <= i < |ids| => (at, ClaimCall(u, ids[i], limit, true)))
  }

  function SpentQuota(w: LetterWorld, u: Id, at: Time): nat {
    if u in w.quota.live && at < w.quota.live[u].expires then w.quota.live[u].count else 0
  }

  ghost predicate Offered(w: LetterWorld, u: Id, ids: seq<Id>) {
    && (forall i :: 0 <= i < |ids| ==> Claimable(w, u, ids[i]))
    && (forall i, j :: 0 <= i < j < |ids| ==> ids[i] != ids[j])
  }

  ghost predicate TakenBy(w: LetterWorld, u: Id, ids: seq<Id>, at: Time) {
    forall i :: 0 <= i < |ids| ==>
      ids[i] in w.letters && w.letters[ids[i]].salvagedBy == Some(u) && w.letters[ids[i]].salvagedAt == Some(at)
  }

  /** Letters outside `ids` and all accounts are as they were. */
  ghost predicate OthersKept(w: LetterWorld, w1: LetterWorld, ids: seq<Id>) {
    w1.accounts == w.accounts && forall x :: x in w.letters && x !in ids ==> x in w1.letters && w1.letters[x] == w.letters[x]
  }

  lemma ClaimWins(w: LetterWorld, u: Id, id: Id, limit: int, at: Time)
    requires Claimable(w, u, id) && SpentQuota(w, u, at) < limit
    ensures var w1 := Claim(w, u, id, limit, true, at);
      && TakenBy(w1, u, [id], at) && OthersKept(w, w1, [id])
      && w1.clock == at && SpentQuota(w1, u, at) == SpentQuota(w, u, at) + 1
  {
  }

  /** As many offered letters as the quota has left are all salvaged. */
  lemma {:induction false} ClaimsWin(w: LetterWorld, u: Id, ids: seq<Id>, limit: int, at: Time)
    requires Offered(w, u, ids) && SpentQuota(w, u, at) + |ids| <= limit && w.clock <= at
    ensures var w1 := LetterRun(w, Claims(u, ids, limit, at));
      TakenBy(w1, u, ids, at) && OthersKept(w, w1, ids) && w.clock <= w1.clock <= at
    decreases |ids|
  {
    if ids != [] {
      var id, rest := ids[0], ids[1..];
      var w1 := Claim(w, u, id, limit, true, at);
      ClaimWins(w, u, id, limit, at);
      assert Claims(u, ids, limit, at)[1..] == Claims(u, rest, limit, at);
      assert Offered(w1, u, rest);
      ClaimsWin(w1, u, rest, limit, at);
      assert id !in rest;
      assert forall x :: x !in ids ==> x !in rest && x != id;
    }
  }

  lemma {:induction false} RunSplit(w: LetterWorld, h: LetterHistory, h1: LetterHistory)
    ensures LetterRun(w, h + h1) == LetterRun(LetterRun(w, h), h1)
    decreases |h|
  {
    if h == [] {
      assert h + h1 == h1;
    } else {
      assert (h + h1)[1..] == h[1..] + h1;
      RunSplit(LetterStep(w, h[0].1, h[0].0), h[1..], h1);
    }
  }

  /** A user not logged in for a week spends the whole limit, is put to sleep, and
      spends the limit again. */
  function Relapse(u: Id, first: seq<Id>, second: seq<Id>, limit: int, t: Time, sleep: Time, later: Time): LetterHistory {
    Claims(u, first, limit, t) + ([(sleep, SleepCall)] + Claims(u, second, limit, later))
  }

  lemma SleepOffers(w: LetterWorld, w1: LetterWorld, u: Id, first: seq<Id>, second: seq<Id>, sleep: Time)
    requires Offered(w, u, second) && OthersKept(w, w1, first) && Members(first) !! Members(second)
    requires u in w.accounts && Lapsed(w.accounts[u], sleep)
    ensures Offered(PutToSleep(w1, sleep), u, second)
    ensures forall at :: SpentQuota(PutToSleep(w1, sleep), u, at) == 0
  {
    forall i | 0 <= i < |second|
      ensures Claimable(PutToSleep(w1, sleep), u, second[i])
    {
      assert second[i] in Members(second) && second[i] !in Members(first);
    }
  }

  /** Two times the limit within one day, for every limit. */
  lemma RelapseDoublesTheLimit(w: LetterWorld, u: Id, first: seq<Id>, second: seq<Id>, limit: nat,
                               t: Time, sleep: Time, later: Time)
    requires w.clock <= t <= sleep <= later < t + DAY && SpentQuota(w, u, t) == 0
    requires u in w.accounts && Lapsed(w.accounts[u], sleep)
    requires |first| == |second| == limit && Offered(w, u, first) && Offered(w, u, second)
    requires Members(first) !! Members(second)
    ensures |SalvagedBy(LetterRun(w, Relapse(u, first, second, limit, t, sleep, later)), u, t, t + DAY)| >= 2 * limit
  {
    ClaimsWin(w, u, first, limit, t);
    var w1 := LetterRun(w, Claims(u, first, limit, t));
    var w2 := PutToSleep(w1, sleep);
    SleepOffers(w, w1, u, first, second, sleep);
    ClaimsWin(w2, u, second, limit, later);
    RelapseRun(w, u, first, second, limit, t, sleep, later);
    RelapseTakes(w2, LetterRun(w2, Claims(u, second, limit, later)), u, first, second, t, later);
  }

  lemma RelapseRun(w: LetterWorld, u: Id, first: seq<Id>, second: seq<Id>, limit: int, t: Time, sleep: Time, later: Time)
    ensures LetterRun(w, Relapse(u, first, second, limit, t, sleep, later))
      == LetterRun(PutToSleep(LetterRun(w, Claims(u, first, limit, t)), sleep), Claims(u, second, limit, later))
  {
    var rest := [(sleep, SleepCall)] + Claims(u, second, limit, later);
    RunSplit(w, Claims(u, first, limit, t), rest);
    assert rest[1..] == Claims(u, second, limit, later);
  }

  lemma RelapseTakes(w2: LetterWorld, w3: LetterWorld, u: Id, first: seq<Id>, second: seq<Id>, t: Time, later: Time)
    requires TakenBy(w2, u, first, t) && TakenBy(w3, u, second, later) && OthersKept(w2, w3, second)
    requires t <= later < t + DAY && Members(first) !! Members(second)
    requires forall i, j :: 0 <= i < j < |first| ==> first[i] != first[j]
    requires forall i, j :: 0 <= i < j < |second| ==> second[i] != second[j]
    ensures |SalvagedBy(w3, u, t, t + DAY)| >= |first| + |second|
  {
    var all := SalvagedBy(w3, u, t, t + DAY);
    forall x | x in Members(first) + Members(second)
      ensures x in all
    {
      assert x in first ==> x !in second by {
        assert x in first ==> x in Members(first);
        assert x in second ==> x in Members(second);
      }
    }
    DistinctCount(first);
    DistinctCount(second);
    assert |Members(first) + Members(second)| == |Members(first)| + |Members(second)|;
    SubsetCount(Members(first) + Members(second), all);
  }

  /** Users 1 and 2 have not logged in since day 0. On day 8 user 1's two letters
      are released, and user 2 relapses over them with a limit of 1. */
  const DAY8: Time := 691200.0

  const Note := Draft(1, "x", "calm", "", Passed, 1.0, 2)

  function Prelude(d: Draft): LetterHistory {
    [(0.0, RegisterCall(1, Some(0.0), "")), (0.0, RegisterCall(2, Some(0.0), "")),
     (DAY8, CreateCall(d)), (DAY8, CreateCall(d)), (DAY8 + 1.0, ReleaseCall([1, 2]))]
  }

  function OverrunHistory(): LetterHistory {
    Prelude(Note) + Relapse(2, [1], [2], 1, DAY8 + 1.0, DAY8 + 2.0, DAY8 + 3.0)
  }

  lemma FiveSteps(w: LetterWorld, h: LetterHistory)
    requires |h| == 5
    ensures LetterRun(w, h)
      == LetterStep(LetterStep(LetterStep(LetterStep(LetterStep(w, h[0].1, h[0].0), h[1].1, h[1].0), h[2].1, h[2].0),
                               h[3].1, h[3].0), h[4].1, h[4].0)
  {
    var w1 := LetterStep(w, h[0].1, h[0].0);
    var w2 := LetterStep(w1, h[1].1, h[1].0);
    var w3 := LetterStep(w2, h[2].1, h[2].0);
    var w4 := LetterStep(w3, h[3].1, h[3].0);
    assert LetterRun(w4, h[4..]) == LetterRun(LetterStep(w4, h[4].1, h[4].0), h[5..]);
    assert LetterRun(w3, h[3..]) == LetterRun(w4, h[3..][1..]);
    assert LetterRun(w2, h[2..]) == LetterRun(w3, h[2..][1..]);
    assert LetterRun(w1, h[1..]) == LetterRun(w2, h[1..][1..]);
    assert h[1..][1..] == h[2..] && h[2..][1..] == h[3..] && h[3..][1..] == h[4..] && h[5..] == [];
  }

  lemma PreludePosts(w: LetterWorld, d: Draft) returns (w2: LetterWorld)
    requires w.letters == map[] && w.sealed == map[] && w.pools == {} && w.nextLetter == 1
    requires w.posts == NoCounters() && d == Note
    ensures w2 == Create(Create(w, d, DAY8), d, DAY8)
    ensures w2.letters.Keys == {1, 2} && w2.quota == w.quota
    ensures forall id :: id in w2.letters ==>
      w2.letters[id].author == 1 && w2.letters[id].status == SEALED && w2.letters[id].releaseAt == DAY8 + 1.0
    ensures 2 in w.accounts ==> 2 in w2.accounts && w2.accounts[2] == w.accounts[2]
  {
    var w1 := Create(w, d, DAY8);
    assert w1.posts.live[1] == Counter(1, DAY8 + DAY) && w1.nextLetter == 2 && w1.letters.Keys == {1};
    w2 := Create(w1, d, DAY8);
    assert Accepted(w1, d, DAY8) && w2.letters.Keys == {1, 2};
  }

  lemma PreludeRelease(w: LetterWorld) returns (w1: LetterWorld)
    requires w.letters.Keys == {1, 2}
    requires forall id :: id in w.letters ==>
      w.letters[id].author == 1 && w.letters[id].status == SEALED && w.letters[id].releaseAt == DAY8 + 1.0
    ensures w1 == Release(w, [1, 2], DAY8 + 1.0)
    ensures Claimable(w1, 2, 1) && Claimable(w1, 2, 2) && w1.quota == w.quota && w1.accounts == w.accounts
  {
    assert [1, 2][..1] == [1] && [1][..0] == [];
    assert ReleaseAll(w, [1], DAY8 + 1.0) == ReleaseOne(w, 1, DAY8 + 1.0);
    w1 := Release(w, [1, 2], DAY8 + 1.0);
    assert w1 == ReleaseOne(ReleaseOne(w, 1, DAY8 + 1.0), 2, DAY8 + 1.0).(clock := DAY8 + 1.0);
  }

  lemma PreludeRegister() returns (w: LetterWorld)
    ensures w == Register(Register(EmptyLetters, 1, Some(0.0), "", 0.0), 2, Some(0.0), "", 0.0)
    ensures w.letters == map[] && w.sealed == map[] && w.pools == {} && w.nextLetter == 1
    ensures w.posts == NoCounters() && w.quota == NoCounters()
    ensures 2 in w.accounts && w.accounts[2] == Account(Active, Some(0.0), 0.0, "", "")
  {
    w := Register(Register(EmptyLetters, 1, Some(0.0), "", 0.0), 2, Some(0.0), "", 0.0);
  }

  lemma PreludeRun(d: Draft)
    ensures LetterRun(EmptyLetters, Prelude(d))
      == Release(Create(Create(Register(Register(EmptyLetters, 1, Some(0.0), "", 0.0), 2, Some(0.0), "", 0.0), d, DAY8), d, DAY8),
                 [1, 2], DAY8 + 1.0)
  {
    FiveSteps(EmptyLetters, Prelude(d));
  }

  lemma PreludeWorld() returns (w: LetterWorld)
    ensures w == LetterRun(EmptyLetters, Prelude(Note))
    ensures Claimable(w, 2, 1) && Claimable(w, 2, 2) && SpentQuota(w, 2, DAY8 + 1.0) == 0 && w.clock == DAY8 + 1.0
    ensures 2 in w.accounts && Lapsed(w.accounts[2], DAY8 + 2.0)
  {
    var w2 := PreludeRegister();
    var w4 := PreludePosts(w2, Note);
    w := PreludeRelease(w4);
    PreludeRun(Note);
  }

  /** A history that respects a daily limit of one salvage and yet has two in one
      day: more than the 2 * limit - 1 that hold without a deletion. */
  lemma SleepBreaksTheBound()
    ensures LetterTimely(OverrunHistory(), 0.0) && LimitedTo(OverrunHistory(), Limits(1, 2))
    ensures var from := DAY8 + 1.0;
      |SalvagedBy(LetterRun(EmptyLetters, OverrunHistory()), 2, from, from + DAY)| > DayBound(1, 0)
  {
    var w := PreludeWorld();
    var from := DAY8 + 1.0;
    var relapse := Relapse(2, [1], [2], 1, from, DAY8 + 2.0, DAY8 + 3.0);
    RunSplit(EmptyLetters, Prelude(Note), relapse);
    assert Members([1]) == {1} && Members([2]) == {2};
    RelapseDoublesTheLimit(w, 2, [1], [2], 1, from, DAY8 + 2.0, DAY8 + 3.0);
    OverrunIsTimely();
  }

  lemma OverrunIsTimely()
    ensures LetterTimely(OverrunHistory(), 0.0) && LimitedTo(OverrunHistory(), Limits(1, 2))
  {
    var h := OverrunHistory();
    assert |h| == 8 && h[5].0 == DAY8 + 1.0 && h[6].0 == DAY8 + 2.0 && h[7].0 == DAY8 + 3.0;
    TimelyFrom(h, 8);
  }

  lemma {:induction false} TimelyFrom(h: LetterHistory, n: nat)
    requires |h| == n && forall i, j :: 0 <= i < j < n ==> h[i].0 <= h[j].0
    ensures forall from :: (h != [] ==> from <= h[0].0) ==> LetterTimely(h, from)
  {
    if h != [] {
      TimelyFrom(h[1..], n - 1);
    }
  }
}
