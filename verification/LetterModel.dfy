/** Letters, the delayed-release queue and the availability pools: committed
    rows and Redis keys, and what each call or worker pass does to them. */
module LetterModel {
  import opened Basics
  import opened RateLimit

  const DAY: Time := 86400.0
  const DORMANT_SECONDS: Time := 604800.0
  const DRAWS_PER_POOL: nat := 20

  datatype LetterStatus = RISK_REVIEW | SEALED | AVAILABLE | SALVAGED | DESTROYED

  /** `cipher` is an opaque token, never empty while the content exists. The
      empty string stands for a missing emotion or city, as in the source's
      truth tests. */
  datatype Letter = Letter(
    author: Id,
    cipher: string,
    emotion: string,
    city: string,
    status: LetterStatus,
    createdAt: Time,
    releaseAt: Time,
    salvagedBy: Option<Id>,
    salvagedAt: Option<Time>,
    destroyAt: Option<Time>)

  datatype PoolKey = All | ByEmotion(emotion: string) | ByCity(city: string) | ByBoth(emotion: string, city: string)

  datatype AccountStatus = Active | Dormant | Suspended

  /** The columns of a user row that letters depend on. */
  datatype Account = Account(
    status: AccountStatus,
    lastLogin: Option<Time>,
    createdAt: Time,
    emotion: string,
    city: string)

  /** `posts` and `quota` are the daily counters of written and salvaged letters. */
  datatype LetterWorld = LetterWorld(
    letters: map<Id, Letter>,
    sealed: map<Id, Time>,
    pools: set<(PoolKey, Id)>,
    quota: Counters<Id>,
    posts: Counters<Id>,
    accounts: map<Id, Account>,
    blocks: set<(Id, Id)>,
    nextLetter: Id,
    clock: Time)

  const EmptyLetters := LetterWorld(map[], map[], {}, NoCounters(), NoCounters(), map[], {}, 1, 0.0)

  // ----- accounts -----

  function AccountOf(w: LetterWorld, u: Id): Account {
    if u in w.accounts then w.accounts[u] else Account(Active, None, w.clock, "", "")
  }

  function OrOwn(asked: string, own: string): string {
    if asked != "" then asked else own
  }

  function Register(w: LetterWorld, u: Id, lastLogin: Option<Time>, city: string, now: Time): LetterWorld {
    if u in w.accounts then w.(clock := now)
    else w.(accounts := w.accounts[u := Account(Active, lastLogin, now, "", city)], clock := now)
  }

  function LogIn(w: LetterWorld, u: Id, now: Time): LetterWorld {
    if u !in w.accounts then w.(clock := now)
    else w.(accounts := w.accounts[u := w.accounts[u].(lastLogin := Some(now))], clock := now)
  }

  /** Activation, muting, banning and their reversals by an admin. */
  function SetAccountStatus(w: LetterWorld, u: Id, status: AccountStatus, now: Time): LetterWorld {
    if u !in w.accounts then w.(clock := now)
    else w.(accounts := w.accounts[u := w.accounts[u].(status := status)], clock := now)
  }

  function SetProfile(w: LetterWorld, u: Id, emotion: string, city: string, now: Time): LetterWorld {
    if u !in w.accounts then w.(clock := now)
    else w.(accounts := w.accounts[u := w.accounts[u].(emotion := emotion, city := city)], clock := now)
  }

  /** Active, over a week old, and not logged in for a week. */
  predicate Lapsed(a: Account, now: Time) {
    && a.status == Active
    && (a.lastLogin.None? || a.lastLogin.value < now - DORMANT_SECONDS)
    && a.createdAt < now - DORMANT_SECONDS
  }

  function LapsedUsers(w: LetterWorld, now: Time): set<Id> {
    set u | u in w.accounts && Lapsed(w.accounts[u], now)
  }

  /** The dormancy worker deletes the daily counters of the users it puts to sleep. */
  function PutToSleep(w: LetterWorld, now: Time): LetterWorld {
    w.(accounts := map u | u in w.accounts ::
         if Lapsed(w.accounts[u], now) then w.accounts[u].(status := Dormant) else w.accounts[u],
       quota := Drop(w.quota, LapsedUsers(w, now), now),
       posts := Drop(w.posts, LapsedUsers(w, now), now),
       clock := now)
  }

  // ----- pool names -----

  function AvailableKeys(emotion: string, city: string): seq<PoolKey> {
    [All] + (if emotion != "" then [ByEmotion(emotion)] else [])
    + (if city != "" then [ByCity(city)] else [])
    + (if emotion != "" && city != "" then [ByBoth(emotion, city)] else [])
  }

  function OrderedMatchKeys(emotion: string, city: string): seq<PoolKey> {
    (if emotion != "" && city != "" then [ByBoth(emotion, city)] else [])
    + (if emotion != "" then [ByEmotion(emotion)] else [])
    + (if city != "" then [ByCity(city)] else [])
    + [All]
  }

  function KeysOf(letter: Letter): seq<PoolKey> {
    AvailableKeys(letter.emotion, letter.city)
  }

  predicate Available(w: LetterWorld, id: Id) {
    id in w.letters && w.letters[id].status == AVAILABLE
  }

  predicate Blocked(w: LetterWorld, u: Id, v: Id) {
    BlockedIn(w.blocks, u, v)
  }

  // ----- pool writes -----

  function PoolEntries(keys: seq<PoolKey>, id: Id): set<(PoolKey, Id)> {
    set k | k in keys :: (k, id)
  }

  function AddToPools(w: LetterWorld, id: Id): LetterWorld {
    if Available(w, id) then w.(pools := w.pools + PoolEntries(KeysOf(w.letters[id]), id)) else w
  }

  function RemoveFromPools(w: LetterWorld, id: Id): LetterWorld {
    if id in w.letters then w.(pools := w.pools - PoolEntries(KeysOf(w.letters[id]), id)) else w
  }

  /** Everything an exact index holds. */
  function ExactPools(w: LetterWorld): set<(PoolKey, Id)> {
    set id, k | id in w.letters && w.letters[id].status == AVAILABLE && k in KeysOf(w.letters[id]) :: (k, id)
  }

  function Rebuild(w: LetterWorld): LetterWorld {
    w.(pools := ExactPools(w))
  }

  /** Letters missing from the pool of all letters are added to all their pools. */
  function Reconcile(w: LetterWorld): LetterWorld {
    w.(pools := w.pools + (set id, k | id in w.letters && w.letters[id].status == AVAILABLE
                                       && (All, id) !in w.pools && k in KeysOf(w.letters[id]) :: (k, id)))
  }

  // ----- the life of a letter -----

  datatype Verdict = HighRisk | Refused | Passed

  datatype Draft = Draft(author: Id, cipher: string, emotion: string, city: string, verdict: Verdict, delay: Time, limit: int)

  /** What the schema lets through. */
  predicate WellFormed(d: Draft) {
    d.cipher != "" && d.delay >= 1.0
  }

  predicate Postable(w: LetterWorld, d: Draft, now: Time) {
    Admits(w.posts, Request(d.author, d.limit, now), DAY)
  }

  predicate Accepted(w: LetterWorld, d: Draft, now: Time) {
    WellFormed(d) && Postable(w, d, now) && d.verdict != Refused
  }

  /** The author's own emotion and city follow the letter. */
  function ProfileAfter(a: Account, d: Draft): Account {
    a.(emotion := d.emotion, city := OrOwn(d.city, a.city))
  }

  /** The row of an accepted draft, and the counter and profile it leaves. */
  function Insert(w: LetterWorld, d: Draft, now: Time): LetterWorld {
    var status := if d.verdict == HighRisk then RISK_REVIEW else SEALED;
    var id := w.nextLetter;
    var own := AccountOf(w, d.author);
    w.(letters := w.letters[id := Letter(d.author, d.cipher, d.emotion, OrOwn(d.city, own.city), status, now, now + d.delay,
                                         None, None, None)],
       sealed := if status == SEALED then w.sealed[id := now + d.delay] else w.sealed,
       accounts := w.accounts[d.author := ProfileAfter(own, d)],
       nextLetter := id + 1)
  }

  /** The counter is raised before the content is judged. */
  function Create(w: LetterWorld, d: Draft, now: Time): LetterWorld {
    if !WellFormed(d) then w.(clock := now)
    else
      var w1 := if Accepted(w, d, now) then Insert(w, d, now) else w;
      w1.(posts := Serve(w.posts, Request(d.author, d.limit, now), DAY), clock := now)
  }

  predicate UnderReview(w: LetterWorld, id: Id) {
    id in w.letters && w.letters[id].status == RISK_REVIEW
  }

  function SetStatus(w: LetterWorld, id: Id, status: LetterStatus): LetterWorld
    requires id in w.letters
  {
    w.(letters := w.letters[id := w.letters[id].(status := status)])
  }

  function Approve(w: LetterWorld, id: Id, releaseNow: bool, now: Time): LetterWorld {
    if !UnderReview(w, id) then w.(clock := now)
    else if releaseNow || w.letters[id].releaseAt <= now then AddToPools(SetStatus(w, id, AVAILABLE), id).(clock := now)
    else SetStatus(w, id, SEALED).(sealed := w.sealed[id := w.letters[id].releaseAt], clock := now)
  }

  function Wipe(w: LetterWorld, id: Id): LetterWorld
    requires id in w.letters
  {
    w.(letters := w.letters[id := w.letters[id].(status := DESTROYED, cipher := "")])
  }

  function Reject(w: LetterWorld, id: Id, now: Time): LetterWorld {
    if UnderReview(w, id) then Wipe(w, id).(clock := now) else w.(clock := now)
  }

  /** Removal after a complaint: pools and zset are not told. */
  function Moderate(w: LetterWorld, id: Id, now: Time): LetterWorld {
    if id in w.letters then Wipe(w, id).(clock := now) else w.(clock := now)
  }

  predicate LifeOver(letter: Letter, now: Time) {
    letter.status == SALVAGED && letter.destroyAt.Some? && letter.destroyAt.value <= now
  }

  /** The letter half of the cleanup worker. */
  function Expire(w: LetterWorld, now: Time): LetterWorld {
    w.(letters := map id | id in w.letters ::
         if LifeOver(w.letters[id], now) then w.letters[id].(status := DESTROYED, cipher := "") else w.letters[id],
       pools := (set e | e in w.pools
         && !(e.1 in w.letters && LifeOver(w.letters[e.1], now) && e.0 in KeysOf(w.letters[e.1]))),
       clock := now)
  }

  // ----- release -----

  function Due(w: LetterWorld, now: Time): set<Id> {
    set id | id in w.sealed && 0.0 <= w.sealed[id] <= now
  }

  /** What ZRANGEBYSCORE may answer: up to `limit` due ids, lowest scores first. */
  ghost predicate IsBatch(w: LetterWorld, batch: seq<Id>, limit: nat, now: Time) {
    && |batch| == (if |Due(w, now)| < limit then |Due(w, now)| else limit)
    && (forall i :: 0 <= i < |batch| ==> batch[i] in Due(w, now))
    && (forall i, j :: 0 <= i < j < |batch| ==> batch[i] != batch[j] && w.sealed[batch[i]] <= w.sealed[batch[j]])
    && (forall i, id :: 0 <= i < |batch| && id in Due(w, now) && id !in batch ==> w.sealed[batch[i]] <= w.sealed[id])
  }

  function ReleaseOne(w: LetterWorld, id: Id, now: Time): LetterWorld {
    if id !in w.letters || w.letters[id].status != SEALED then w.(sealed := w.sealed - {id})
    else if w.letters[id].releaseAt <= now then
      AddToPools(SetStatus(w, id, AVAILABLE), id).(sealed := w.sealed - {id})
    else w
  }

  function ReleaseAll(w: LetterWorld, batch: seq<Id>, now: Time): LetterWorld {
    if batch == [] then w
    else ReleaseOne(ReleaseAll(w, batch[..|batch| - 1], now), batch[|batch| - 1], now)
  }

  /** A worker pass over the batch Redis answered. */
  function Release(w: LetterWorld, batch: seq<Id>, now: Time): LetterWorld {
    ReleaseAll(w, batch, now).(clock := now)
  }

  /** The worker dies after the commit, `n` pool writes into the index update. */
  function CrashedRelease(w: LetterWorld, id: Id, n: nat): LetterWorld
    requires id in w.letters && n <= |KeysOf(w.letters[id])|
  {
    SetStatus(w, id, AVAILABLE).(pools := w.pools + PoolEntries(KeysOf(w.letters[id])[..n], id))
  }

  // ----- salvage -----

  /** A drawn letter that is no longer available leaves its pools. */
  function Scrub(w: LetterWorld, id: Id): LetterWorld {
    if Available(w, id) then w else RemoveFromPools(w, id)
  }

  function ScrubAll(w: LetterWorld, ids: seq<Id>): LetterWorld {
    if ids == [] then w else Scrub(ScrubAll(w, ids[..|ids| - 1]), ids[|ids| - 1])
  }

  predicate Claimable(w: LetterWorld, u: Id, id: Id) {
    Available(w, id) && w.letters[id].author != u
  }

  predicate Affordable(w: LetterWorld, u: Id, limit: int, now: Time) {
    Admits(w.quota, Request(u, limit, now), DAY)
  }

  predicate Wins(w: LetterWorld, u: Id, id: Id, limit: int, drawn: bool, now: Time) {
    Claimable(w, u, id) && Affordable(w, u, limit, now) && drawn
  }

  function Salvaged(letter: Letter, u: Id, now: Time): Letter {
    letter.(status := SALVAGED, salvagedBy := Some(u), salvagedAt := Some(now), destroyAt := Some(now + DAY))
  }

  /** The conditional update, the quota, and commit or rollback. `drawn` says
      whether the identities of the two users could be drawn; the quota is spent
      before that is known. */
  function Claim(w: LetterWorld, u: Id, id: Id, limit: int, drawn: bool, now: Time): LetterWorld {
    if !Claimable(w, u, id) then w.(clock := now)
    else
      var w1 := w.(quota := Serve(w.quota, Request(u, limit, now), DAY), clock := now);
      if Wins(w, u, id, limit, drawn, now) then RemoveFromPools(w1.(letters := w.letters[id := Salvaged(w.letters[id], u, now)]), id)
      else w1
  }

  // ----- runs -----

  datatype LetterCall =
    | RegisterCall(u: Id, lastLogin: Option<Time>, city: string)
    | LogInCall(u: Id)
    | AccountCall(u: Id, status: AccountStatus)
    | ProfileCall(u: Id, emotion: string, city: string)
    | SleepCall
    | CreateCall(draft: Draft)
    | ApproveCall(id: Id, releaseNow: bool)
    | RejectCall(id: Id)
    | ModerateCall(id: Id)
    | ExpireCall
    | ReleaseCall(batch: seq<Id>)
    | ScrubCall(id: Id)
    | ClaimCall(u: Id, id: Id, limit: int, drawn: bool)
    | RebuildCall
    | ReconcileCall
    | BlockCall(u: Id, v: Id)

  function LetterStep(w: LetterWorld, c: LetterCall, now: Time): LetterWorld {
    match c
    case RegisterCall(u, lastLogin, city) => Register(w, u, lastLogin, city, now)
    case LogInCall(u) => LogIn(w, u, now)
    case AccountCall(u, status) => SetAccountStatus(w, u, status, now)
    case ProfileCall(u, emotion, city) => SetProfile(w, u, emotion, city, now)
    case SleepCall => PutToSleep(w, now)
    case CreateCall(d) => Create(w, d, now)
    case ApproveCall(id, releaseNow) => Approve(w, id, releaseNow, now)
    case RejectCall(id) => Reject(w, id, now)
    case ModerateCall(id) => Moderate(w, id, now)
    case ExpireCall => Expire(w, now)
    case ReleaseCall(batch) => Release(w, batch, now)
    case ScrubCall(id) => Scrub(w, id).(clock := now)
    case ClaimCall(u, id, limit, drawn) => Claim(w, u, id, limit, drawn, now)
    case RebuildCall => Rebuild(w).(clock := now)
    case ReconcileCall => Reconcile(w).(clock := now)
    case BlockCall(u, v) => w.(blocks := w.blocks + {(u, v)}, clock := now)
  }

  type LetterHistory = seq<(Time, LetterCall)>

  predicate LetterTimely(h: LetterHistory, from: Time) {
    h == [] || (from <= h[0].0 && LetterTimely(h[1..], h[0].0))
  }

  /** The configured daily limits may change but never exceed these. */
  datatype Limits = Limits(salvages: nat, posts: nat)

  predicate WithinLimits(c: LetterCall, limits: Limits) {
    (c.ClaimCall? ==> c.limit <= limits.salvages) && (c.CreateCall? ==> c.draft.limit <= limits.posts)
  }

  predicate LimitedTo(h: LetterHistory, limits: Limits) {
    forall i :: 0 <= i < |h| ==> WithinLimits(h[i].1, limits)
  }

  function LetterRun(w: LetterWorld, h: LetterHistory): LetterWorld
    decreases |h|
  {
    if h == [] then w else LetterRun(LetterStep(w, h[0].1, h[0].0), h[1..])
  }
}
