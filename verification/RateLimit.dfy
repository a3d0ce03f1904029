/** The fixed-window limiter: a Redis counter that gets its expiry from the call
    that makes it 1, and that other code may delete. The sharp bound: with limits
    up to L and k deletions of a key's counter inside it, an interval as long as
    the window sees at most (k + 2) L - 1 admitted calls of the key. */
module RateLimit {
  import opened Basics

  datatype Counter = Counter(count: nat, expires: Time)

  /** One admitted call: how often its counter had been deleted, its window's
      opening, its time and the counter value it drew. */
  datatype Admission<K> = Admission(key: K, epoch: nat, start: Time, at: Time, rank: nat)

  /** Redis counters, the calls admitted so far, and when each key was deleted. */
  datatype Counters<K> = Counters(live: map<K, Counter>, admitted: seq<Admission<K>>, drops: map<K, seq<Time>>)

  datatype Request<K> = Request(key: K, limit: int, at: Time)

  function DropsOf<K>(s: Counters<K>, key: K): seq<Time> {
    if key in s.drops then s.drops[key] else []
  }

  function Incremented<K>(s: Counters<K>, key: K, window: Time, now: Time): Counter {
    if key in s.live && now < s.live[key].expires then Counter(s.live[key].count + 1, s.live[key].expires)
    else Counter(1, now + window)
  }

  predicate Admits<K>(s: Counters<K>, r: Request<K>, window: Time) {
    Incremented(s, r.key, window, r.at).count <= r.limit
  }

  function Admitted<K>(s: Counters<K>, r: Request<K>, window: Time): Admission<K> {
    var c := Incremented(s, r.key, window, r.at);
    Admission(r.key, |DropsOf(s, r.key)|, c.expires - window, r.at, c.count)
  }

  /** A refused call still increments. */
  function Serve<K>(s: Counters<K>, r: Request<K>, window: Time): Counters<K> {
    s.(live := s.live[r.key := Incremented(s, r.key, window, r.at)],
       admitted := if Admits(s, r, window) then s.admitted + [Admitted(s, r, window)] else s.admitted)
  }

  /** DEL of the counters of some keys. */
  function Drop<K>(s: Counters<K>, keys: set<K>, now: Time): Counters<K> {
    s.(live := map k | k in s.live && k !in keys :: s.live[k],
       drops := map k | k in s.drops.Keys + keys :: if k in keys then DropsOf(s, k) + [now] else s.drops[k])
  }

  datatype Event<K> = Ask(request: Request<K>) | Delete(key: K, at: Time)

  function TimeOf<K>(e: Event<K>): Time {
    if e.Ask? then e.request.at else e.at
  }

  function Handle<K>(s: Counters<K>, e: Event<K>, window: Time): Counters<K> {
    if e.Ask? then Serve(s, e.request, window) else Drop(s, {e.key}, e.at)
  }

  function HandleAll<K>(s: Counters<K>, es: seq<Event<K>>, window: Time): Counters<K> {
    if es == [] then s
    else Handle(HandleAll(s, es[..|es| - 1], window), es[|es| - 1], window)
  }

  function NoCounters<K>(): Counters<K> { Counters(map[], [], map[]) }

  // ----- counting -----

  function Count<T>(s: seq<T>, p: T -> bool): nat {
    if s == [] then 0 else Count(s[..|s| - 1], p) + if p(s[|s| - 1]) then 1 else 0
  }

  lemma CountAppend<T>(s: seq<T>, e: T, p: T -> bool)
    ensures Count(s + [e], p) == Count(s, p) + if p(e) then 1 else 0
  {
    assert (s + [e])[..|s|] == s;
  }

  lemma {:induction false} CountNone<T>(s: seq<T>, p: T -> bool)
    requires forall i :: 0 <= i < |s| ==> !p(s[i])
    ensures Count(s, p) == 0
  {
    if s != [] {
      CountNone(s[..|s| - 1], p);
    }
  }

  lemma {:induction false} CountSplits<T>(s: seq<T>, p: T -> bool, q: T -> bool, r: T -> bool)
    requires forall i :: 0 <= i < |s| && p(s[i]) ==> q(s[i]) || r(s[i])
    ensures Count(s, p) <= Count(s, q) + Count(s, r)
  {
    if s != [] {
      CountSplits(s[..|s| - 1], p, q, r);
    }
  }

  function Within<K(==)>(key: K, from: Time, to: Time): Admission<K> -> bool {
    (e: Admission<K>) => e.key == key && from <= e.at < to
  }

  /** Admissions of one window that drew at least `rank`. */
  function InWindow<K(==)>(key: K, epoch: nat, start: Time, rank: nat): Admission<K> -> bool {
    (e: Admission<K>) => e.key == key && e.epoch == epoch && e.start == start && e.rank >= rank
  }

  function DuringEpoch<K(==)>(key: K, epoch: nat, from: Time, to: Time): Admission<K> -> bool {
    (e: Admission<K>) => e.key == key && e.epoch == epoch && from <= e.at < to
  }

  function UpToEpoch<K(==)>(key: K, epoch: nat, from: Time, to: Time): Admission<K> -> bool {
    (e: Admission<K>) => e.key == key && e.epoch <= epoch && from <= e.at < to
  }

  function Never<T>(): T -> bool {
    (t: T) => false
  }

  function Between(from: Time, to: Time): Time -> bool {
    t => from <= t < to
  }

  function CountWithin<K(==)>(log: seq<Admission<K>>, key: K, from: Time, to: Time): nat {
    Count(log, Within(key, from, to))
  }

  /** Deletions of a key's counter in an interval. */
  function DropsWithin<K>(s: Counters<K>, key: K, from: Time, to: Time): nat {
    Count(DropsOf(s, key), Between(from, to))
  }

  // ----- the invariant -----

  ghost predicate Placed<K>(e: Admission<K>, window: Time) {
    e.start <= e.at < e.start + window && e.rank >= 1 && (e.rank == 1 ==> e.at == e.start)
  }

  ghost predicate Apart<K>(log: seq<Admission<K>>, window: Time) {
    forall i, j :: 0 <= i < |log| && 0 <= j < |log| && log[i].key == log[j].key && log[i].epoch == log[j].epoch
                   && log[i].start < log[j].start
      ==> log[i].start + window <= log[j].start
  }

  /** Every admission since the last deletion belongs to the current counter's
      window or to one already over. */
  ghost predicate Covered<K>(s: Counters<K>, window: Time) {
    forall i :: 0 <= i < |s.admitted| && s.admitted[i].epoch == |DropsOf(s, s.admitted[i].key)| ==>
      var e := s.admitted[i];
      e.key in s.live
      && var start := s.live[e.key].expires - window;
         e.start == start || e.start + window <= start
  }

  /** A deletion comes after the admissions before it and before the windows after it. */
  ghost predicate Parted<K>(s: Counters<K>, e: Admission<K>) {
    && e.epoch <= |DropsOf(s, e.key)|
    && forall j :: 0 <= j < |DropsOf(s, e.key)| ==>
         if j < e.epoch then DropsOf(s, e.key)[j] <= e.start else e.at <= DropsOf(s, e.key)[j]
  }

  ghost predicate Running<K>(s: Counters<K>, key: K, window: Time, clock: Time)
    requires key in s.live
  {
    && s.live[key].count >= 1 && s.live[key].expires - window <= clock
    && forall j :: 0 <= j < |DropsOf(s, key)| ==> DropsOf(s, key)[j] <= s.live[key].expires - window
  }

  /** Windows open in the past, last `window`, and overlap only across a deletion. */
  ghost predicate Windows<K(!new)>(s: Counters<K>, window: Time, clock: Time) {
    && (forall i :: 0 <= i < |s.admitted| ==>
          Placed(s.admitted[i], window) && s.admitted[i].at <= clock && Parted(s, s.admitted[i]))
    && (forall key :: key in s.live ==> Running(s, key, window, clock))
    && (forall key, j :: 0 <= j < |DropsOf(s, key)| ==> DropsOf(s, key)[j] <= clock)
    && Apart(s.admitted, window) && Covered(s, window)
  }

  ghost predicate Bounded<K(!new)>(log: seq<Admission<K>>, limit: nat) {
    forall key, epoch, start ::
      && Count(log, InWindow(key, epoch, start, 1)) <= limit
      && Count(log, InWindow(key, epoch, start, 2)) <= (if limit == 0 then 0 else limit - 1)
  }

  /** A window admitted no more than its counter says, and less after its opening call. */
  ghost predicate DrawnBy<K>(log: seq<Admission<K>>, key: K, epoch: nat, c: Counter, window: Time) {
    && Count(log, InWindow(key, epoch, c.expires - window, 1)) <= c.count
    && Count(log, InWindow(key, epoch, c.expires - window, 2)) <= c.count - 1
  }

  ghost predicate Drawn<K(!new)>(s: Counters<K>, window: Time) {
    forall key :: key in s.live ==> DrawnBy(s.admitted, key, |DropsOf(s, key)|, s.live[key], window)
  }

  ghost predicate Sound<K(!new)>(s: Counters<K>, limit: nat, window: Time, clock: Time) {
    Windows(s, window, clock) && Bounded(s.admitted, limit) && Drawn(s, window)
  }

  // ----- preservation by calls -----

  /** Before the call that makes the counter 1 nothing was admitted in its window. */
  lemma FreshWindow<K(!new)>(s: Counters<K>, window: Time, clock: Time, r: Request<K>)
    requires Windows(s, window, clock) && clock <= r.at && window > 0.0
    requires Incremented(s, r.key, window, r.at).count == 1
    ensures forall i | 0 <= i < |s.admitted| && s.admitted[i].key == r.key && s.admitted[i].epoch == |DropsOf(s, r.key)| ::
      s.admitted[i].start + window <= r.at
    ensures forall rank :: Count(s.admitted, InWindow(r.key, |DropsOf(s, r.key)|, r.at, rank)) == 0
  {
    forall i | 0 <= i < |s.admitted| && s.admitted[i].key == r.key && s.admitted[i].epoch == |DropsOf(s, r.key)|
      ensures s.admitted[i].start + window <= r.at
    {
      assert Placed(s.admitted[i], window);
      assert Running(s, r.key, window, clock);
    }
    forall rank
      ensures Count(s.admitted, InWindow(r.key, |DropsOf(s, r.key)|, r.at, rank)) == 0
    {
      CountNone(s.admitted, InWindow(r.key, |DropsOf(s, r.key)|, r.at, rank));
    }
  }

  lemma ServeTimes<K(!new)>(s: Counters<K>, window: Time, clock: Time, r: Request<K>)
    requires Windows(s, window, clock) && clock <= r.at && window > 0.0
    ensures var s1 := Serve(s, r, window);
      && (forall i :: 0 <= i < |s1.admitted| ==>
            Placed(s1.admitted[i], window) && s1.admitted[i].at <= r.at && Parted(s1, s1.admitted[i]))
      && (forall key :: key in s1.live ==> Running(s1, key, window, r.at))
  {
    var s1 := Serve(s, r, window);
    forall key | key in s1.live
      ensures Running(s1, key, window, r.at)
    {
      assert DropsOf(s1, key) == DropsOf(s, key);
      assert key in s.live ==> Running(s, key, window, clock);
    }
    assert forall i :: 0 <= i < |s.admitted| ==> Parted(s, s.admitted[i]) && Parted(s1, s.admitted[i]);
  }

  lemma ServeCovered<K(!new)>(s: Counters<K>, window: Time, clock: Time, r: Request<K>)
    requires Windows(s, window, clock) && clock <= r.at && window > 0.0
    ensures Covered(Serve(s, r, window), window)
  {
    if Incremented(s, r.key, window, r.at).count == 1 {
      FreshWindow(s, window, clock, r);
    }
  }

  lemma ServeApart<K(!new)>(s: Counters<K>, window: Time, clock: Time, r: Request<K>)
    requires Windows(s, window, clock) && clock <= r.at && window > 0.0
    ensures Apart(Serve(s, r, window).admitted, window)
  {
    var s1 := Serve(s, r, window);
    ServeCovered(s, window, clock, r);
    var c := Incremented(s, r.key, window, r.at);
    if c.count == 1 {
      FreshWindow(s, window, clock, r);
    }
    forall i | 0 <= i < |s.admitted| && s.admitted[i].key == r.key && s.admitted[i].epoch == |DropsOf(s, r.key)|
      ensures s.admitted[i].start == c.expires - window || s.admitted[i].start + window <= c.expires - window
    {
      assert s1.admitted[i] == s.admitted[i];
    }
  }

  lemma ServeWindows<K(!new)>(s: Counters<K>, window: Time, clock: Time, r: Request<K>)
    requires Windows(s, window, clock) && clock <= r.at && window > 0.0
    ensures Windows(Serve(s, r, window), window, r.at)
  {
    ServeTimes(s, window, clock, r);
    ServeCovered(s, window, clock, r);
    ServeApart(s, window, clock, r);
    assert forall key :: DropsOf(Serve(s, r, window), key) == DropsOf(s, key);
  }

  /** The call's window had room for one more admission. */
  lemma WindowCounts<K(!new)>(s: Counters<K>, window: Time, clock: Time, r: Request<K>)
    requires Windows(s, window, clock) && Drawn(s, window) && clock <= r.at && window > 0.0
    ensures var c := Incremented(s, r.key, window, r.at);
      var epoch := |DropsOf(s, r.key)|;
      && Count(s.admitted, InWindow(r.key, epoch, c.expires - window, 1)) <= c.count - 1
      && Count(s.admitted, InWindow(r.key, epoch, c.expires - window, 2)) <= (if c.count == 1 then 0 else c.count - 2)
  {
    var c := Incremented(s, r.key, window, r.at);
    if c.count == 1 {
      FreshWindow(s, window, clock, r);
      assert c.expires - window == r.at;
    }
  }

  lemma OneMoreBounded<K(!new)>(log: seq<Admission<K>>, e: Admission<K>, limit: nat)
    requires Bounded(log, limit) && 1 <= e.rank <= limit
    requires Count(log, InWindow(e.key, e.epoch, e.start, 1)) <= e.rank - 1
    requires Count(log, InWindow(e.key, e.epoch, e.start, 2)) <= (if e.rank == 1 then 0 else e.rank - 2)
    ensures Bounded(log + [e], limit)
  {
    forall key, epoch, start
      ensures Count(log + [e], InWindow(key, epoch, start, 1)) <= limit
      ensures Count(log + [e], InWindow(key, epoch, start, 2)) <= (if limit == 0 then 0 else limit - 1)
    {
      CountAppend(log, e, InWindow(key, epoch, start, 1));
      CountAppend(log, e, InWindow(key, epoch, start, 2));
    }
  }

  lemma ServeBounded<K(!new)>(s: Counters<K>, limit: nat, window: Time, clock: Time, r: Request<K>)
    requires Sound(s, limit, window, clock) && clock <= r.at && window > 0.0 && r.limit <= limit
    ensures Bounded(Serve(s, r, window).admitted, limit)
  {
    if Admits(s, r, window) {
      WindowCounts(s, window, clock, r);
      OneMoreBounded(s.admitted, Admitted(s, r, window), limit);
    }
  }

  lemma OneMoreDrawn<K>(log: seq<Admission<K>>, e: Admission<K>, c: Counter, window: Time)
    requires e.start == c.expires - window && e.rank == c.count >= 1
    requires Count(log, InWindow(e.key, e.epoch, e.start, 1)) <= c.count - 1
    requires Count(log, InWindow(e.key, e.epoch, e.start, 2)) <= (if c.count == 1 then 0 else c.count - 2)
    ensures DrawnBy(log, e.key, e.epoch, c, window) && DrawnBy(log + [e], e.key, e.epoch, c, window)
  {
    CountAppend(log, e, InWindow(e.key, e.epoch, e.start, 1));
    CountAppend(log, e, InWindow(e.key, e.epoch, e.start, 2));
  }

  lemma ServeDrawnOwn<K(!new)>(s: Counters<K>, window: Time, clock: Time, r: Request<K>)
    requires Windows(s, window, clock) && Drawn(s, window) && clock <= r.at && window > 0.0
    ensures DrawnBy(Serve(s, r, window).admitted, r.key, |DropsOf(s, r.key)|, Incremented(s, r.key, window, r.at), window)
  {
    WindowCounts(s, window, clock, r);
    OneMoreDrawn(s.admitted, Admitted(s, r, window), Incremented(s, r.key, window, r.at), window);
  }

  lemma ServeDrawnOther<K>(s: Counters<K>, window: Time, r: Request<K>, key: K, epoch: nat, c: Counter)
    requires key != r.key && DrawnBy(s.admitted, key, epoch, c, window)
    ensures DrawnBy(Serve(s, r, window).admitted, key, epoch, c, window)
  {
    CountAppend(s.admitted, Admitted(s, r, window), InWindow(key, epoch, c.expires - window, 1));
    CountAppend(s.admitted, Admitted(s, r, window), InWindow(key, epoch, c.expires - window, 2));
  }

  lemma ServeDrawn<K(!new)>(s: Counters<K>, window: Time, clock: Time, r: Request<K>)
    requires Windows(s, window, clock) && Drawn(s, window) && clock <= r.at && window > 0.0
    ensures Drawn(Serve(s, r, window), window)
  {
    var s1 := Serve(s, r, window);
    ServeDrawnOwn(s, window, clock, r);
    forall key | key in s1.live && key != r.key
      ensures DrawnBy(s1.admitted, key, |DropsOf(s1, key)|, s1.live[key], window)
    {
      ServeDrawnOther(s, window, r, key, |DropsOf(s, key)|, s.live[key]);
    }
  }

  lemma ServeSound<K(!new)>(s: Counters<K>, limit: nat, window: Time, clock: Time, r: Request<K>)
    requires Sound(s, limit, window, clock) && clock <= r.at && window > 0.0 && r.limit <= limit
    ensures Sound(Serve(s, r, window), limit, window, r.at)
  {
    ServeWindows(s, window, clock, r);
    ServeBounded(s, limit, window, clock, r);
    ServeDrawn(s, window, clock, r);
  }

  // ----- preservation by deletions -----

  lemma DropKey<K>(s: Counters<K>, keys: set<K>, now: Time, key: K)
    ensures DropsOf(Drop(s, keys, now), key) == if key in keys then DropsOf(s, key) + [now] else DropsOf(s, key)
  {
  }

  lemma DropSound<K(!new)>(s: Counters<K>, limit: nat, window: Time, clock: Time, keys: set<K>, now: Time)
    requires Sound(s, limit, window, clock) && clock <= now
    ensures Sound(Drop(s, keys, now), limit, window, now)
  {
    var s1 := Drop(s, keys, now);
    forall i | 0 <= i < |s1.admitted|
      ensures Placed(s1.admitted[i], window) && s1.admitted[i].at <= now && Parted(s1, s1.admitted[i])
    {
      assert Parted(s, s.admitted[i]);
      DropKey(s, keys, now, s.admitted[i].key);
    }
    forall key | key in s1.live
      ensures Running(s1, key, window, now)
    {
      assert Running(s, key, window, clock);
      DropKey(s, keys, now, key);
    }
    forall key, j | 0 <= j < |DropsOf(s1, key)|
      ensures DropsOf(s1, key)[j] <= now
    {
      DropKey(s, keys, now, key);
    }
    DropCovered(s, limit, window, clock, keys, now);
  }

  lemma DropCovered<K(!new)>(s: Counters<K>, limit: nat, window: Time, clock: Time, keys: set<K>, now: Time)
    requires Sound(s, limit, window, clock)
    ensures Covered(Drop(s, keys, now), window) && Drawn(Drop(s, keys, now), window)
  {
    var s1 := Drop(s, keys, now);
    forall i | 0 <= i < |s1.admitted| && s1.admitted[i].epoch == |DropsOf(s1, s1.admitted[i].key)|
      ensures s1.admitted[i].key !in keys
    {
      assert Parted(s, s.admitted[i]);
      DropKey(s, keys, now, s.admitted[i].key);
    }
    forall key | key !in keys
      ensures DropsOf(s1, key) == DropsOf(s, key)
    {
      DropKey(s, keys, now, key);
    }
  }

  lemma HandleSound<K(!new)>(s: Counters<K>, limit: nat, window: Time, clock: Time, e: Event<K>)
    requires Sound(s, limit, window, clock) && clock <= TimeOf(e) && window > 0.0
    requires e.Ask? ==> e.request.limit <= limit
    ensures Sound(Handle(s, e, window), limit, window, TimeOf(e))
  {
    if e.Ask? {
      ServeSound(s, limit, window, clock, e.request);
    } else {
      DropSound(s, limit, window, clock, {e.key}, e.at);
    }
  }

  // ----- the interval bound -----

  /** An interval of one window's length meets, between two deletions, at most one
      window that starts before it and at most one that starts inside it. */
  lemma TwoWindows<K>(log: seq<Admission<K>>, key: K, epoch: nat, from: Time, window: Time) returns (s1: Time, s2: Time)
    requires window > 0.0 && Apart(log, window)
    requires forall i :: 0 <= i < |log| ==> Placed(log[i], window)
    ensures s1 < from <= s2
    ensures forall i :: 0 <= i < |log| && DuringEpoch(key, epoch, from, from + window)(log[i]) ==>
      (log[i].start == s1 && log[i].rank >= 2) || (log[i].start == s2 && log[i].rank >= 1)
  {
    var p := DuringEpoch(key, epoch, from, from + window);
    s1, s2 := from - window, from + window;
    if i :| 0 <= i < |log| && p(log[i]) && log[i].start < from {
      s1 := log[i].start;
    }
    if j :| 0 <= j < |log| && p(log[j]) && log[j].start >= from {
      s2 := log[j].start;
    }
  }

  /** What one epoch contributes: a tail and a whole window, or only the latter
      when the epoch began inside the interval. */
  lemma EpochBound<K(!new)>(s: Counters<K>, key: K, epoch: nat, from: Time, limit: nat, window: Time, clock: Time)
    requires Sound(s, limit, window, clock) && window > 0.0 && limit > 0
    ensures Count(s.admitted, DuringEpoch(key, epoch, from, from + window)) <= 2 * limit - 1
    ensures 0 < epoch <= |DropsOf(s, key)| && DropsOf(s, key)[epoch - 1] >= from ==>
      Count(s.admitted, DuringEpoch(key, epoch, from, from + window)) <= limit
  {
    var p := DuringEpoch(key, epoch, from, from + window);
    var s1, s2 := TwoWindows(s.admitted, key, epoch, from, window);
    CountSplits(s.admitted, p, InWindow(key, epoch, s1, 2), InWindow(key, epoch, s2, 1));
    assert Bounded(s.admitted, limit);
    if 0 < epoch <= |DropsOf(s, key)| && DropsOf(s, key)[epoch - 1] >= from {
      forall i | 0 <= i < |s.admitted| && p(s.admitted[i])
        ensures InWindow(key, epoch, s2, 1)(s.admitted[i])
      {
        assert Parted(s, s.admitted[i]);
      }
      CountSplits(s.admitted, p, InWindow(key, epoch, s2, 1), Never<Admission<K>>());
      CountNone(s.admitted, Never<Admission<K>>());
    }
  }

  lemma EpochStep<K(!new)>(s: Counters<K>, key: K, epoch: nat, from: Time, limit: nat, window: Time, clock: Time)
    requires Sound(s, limit, window, clock) && window > 0.0 && limit > 0 && 0 < epoch <= |DropsOf(s, key)|
    ensures var drop, to := DropsOf(s, key)[epoch - 1], from + window;
      var before := Count(s.admitted, UpToEpoch(key, epoch - 1, from, to));
      Count(s.admitted, UpToEpoch(key, epoch, from, to))
        <= if from <= drop < to then before + limit else if drop < from then 2 * limit - 1 else before
  {
    var drop, to := DropsOf(s, key)[epoch - 1], from + window;
    var p, q := UpToEpoch(key, epoch, from, to), UpToEpoch(key, epoch - 1, from, to);
    var here := DuringEpoch(key, epoch, from, to);
    CountSplits(s.admitted, p, q, here);
    EpochBound(s, key, epoch, from, limit, window, clock);
    forall i | 0 <= i < |s.admitted|
      ensures drop < from ==> !q(s.admitted[i])
      ensures drop >= to ==> !here(s.admitted[i])
    {
      assert Parted(s, s.admitted[i]) && Placed(s.admitted[i], window);
    }
    if drop < from {
      CountNone(s.admitted, q);
    }
    if drop >= to {
      CountNone(s.admitted, here);
    }
  }

  lemma {:induction false} EpochsBound<K(!new)>(
      s: Counters<K>, key: K, epoch: nat, from: Time, limit: nat, window: Time, clock: Time)
    requires Sound(s, limit, window, clock) && window > 0.0 && limit > 0 && epoch <= |DropsOf(s, key)|
    ensures Count(s.admitted, UpToEpoch(key, epoch, from, from + window))
         <= (Count(DropsOf(s, key)[..epoch], Between(from, from + window)) + 2) * limit - 1
  {
    var p := UpToEpoch(key, epoch, from, from + window);
    var between := Between(from, from + window);
    if epoch == 0 {
      EpochBound(s, key, 0, from, limit, window, clock);
      CountSplits(s.admitted, p, DuringEpoch(key, 0, from, from + window), Never<Admission<K>>());
      CountNone(s.admitted, Never<Admission<K>>());
    } else {
      EpochsBound(s, key, epoch - 1, from, limit, window, clock);
      EpochStep(s, key, epoch, from, limit, window, clock);
      var drops := DropsOf(s, key);
      assert drops[..epoch][..epoch - 1] == drops[..epoch - 1];
      var k, k1 := Count(drops[..epoch - 1], between), Count(drops[..epoch], between);
      Multiples(k, limit);
      Multiples(k1, limit);
    }
  }

  lemma Multiples(k: nat, limit: nat)
    ensures (k + 2) * limit == k * limit + 2 * limit && (k + 3) * limit == (k + 2) * limit + limit
    ensures (k + 2) * limit >= 2 * limit
  {
  }

  /** The bound with k deletions, for every key and every interval. */
  lemma IntervalBound<K(!new)>(s: Counters<K>, key: K, from: Time, limit: nat, window: Time, clock: Time)
    requires Sound(s, limit, window, clock) && window > 0.0
    ensures CountWithin(s.admitted, key, from, from + window)
         <= if limit == 0 then 0 else (DropsWithin(s, key, from, from + window) + 2) * limit - 1
  {
    if limit == 0 {
      NoneAtZero(s.admitted);
    } else {
      var n := |DropsOf(s, key)|;
      EpochsBound(s, key, n, from, limit, window, clock);
      assert DropsOf(s, key)[..n] == DropsOf(s, key);
      var none: Admission<K> -> bool := Never();
      forall i | 0 <= i < |s.admitted| && Within(key, from, from + window)(s.admitted[i])
        ensures UpToEpoch(key, n, from, from + window)(s.admitted[i])
      {
        assert Parted(s, s.admitted[i]);
      }
      CountSplits(s.admitted, Within(key, from, from + window), UpToEpoch(key, n, from, from + window), none);
      CountNone(s.admitted, none);
    }
  }

  lemma {:induction false} CountSome<T>(s: seq<T>, i: nat, p: T -> bool)
    requires i < |s| && p(s[i])
    ensures Count(s, p) > 0
  {
    if i < |s| - 1 {
      CountSome(s[..|s| - 1], i, p);
    }
  }

  lemma NoneAtZero<K(!new)>(log: seq<Admission<K>>)
    requires Bounded(log, 0) && forall i :: 0 <= i < |log| ==> log[i].rank >= 1
    ensures log == []
  {
    if log != [] {
      CountSome(log, 0, InWindow(log[0].key, log[0].epoch, log[0].start, 1));
    }
  }

  /** Two windows of a key follow each other. */
  lemma WindowsFollow<K(!new)>(s: Counters<K>, x: nat, y: nat, window: Time, clock: Time)
    requires Windows(s, window, clock) && x < |s.admitted| && y < |s.admitted| && s.admitted[x].key == s.admitted[y].key
    requires s.admitted[x].epoch != s.admitted[y].epoch || s.admitted[x].start != s.admitted[y].start
    ensures s.admitted[x].at <= s.admitted[y].start || s.admitted[y].at <= s.admitted[x].start
  {
    var e, f := s.admitted[x], s.admitted[y];
    assert Placed(e, window) && Placed(f, window) && Parted(s, e) && Parted(s, f);
    if e.epoch < f.epoch {
      assert DropsOf(s, e.key)[e.epoch] <= f.start;
    } else if f.epoch < e.epoch {
      assert DropsOf(s, e.key)[f.epoch] <= e.start;
    }
  }

  lemma OneWindowBound<K(!new)>(log: seq<Admission<K>>, p: Admission<K> -> bool, e: Admission<K>, limit: nat)
    requires Bounded(log, limit)
    requires forall y :: 0 <= y < |log| && p(log[y]) ==> InWindow(e.key, e.epoch, e.start, 1)(log[y])
    ensures Count(log, p) <= limit
  {
    CountSplits(log, p, InWindow(e.key, e.epoch, e.start, 1), Never<Admission<K>>());
    CountNone(log, Never<Admission<K>>());
  }

  lemma {:induction false} Find<T>(s: seq<T>, p: T -> bool) returns (i: nat)
    requires Count(s, p) > 0
    ensures i < |s| && p(s[i])
  {
    i := |s| - 1;
    if !p(s[i]) {
      i := Find(s[..i], p);
    }
  }

  /** More than the limit is admitted in an interval only when a window opens in
      it after an earlier window admitted a call in it. */
  lemma OverrunNeedsAWindow<K(!new)>(
      s: Counters<K>, key: K, from: Time, limit: nat, window: Time, clock: Time) returns (i: nat, j: nat)
    requires Sound(s, limit, window, clock) && window > 0.0
    requires CountWithin(s.admitted, key, from, from + window) > limit
    ensures i < |s.admitted| && Within(key, from, from + window)(s.admitted[i])
    ensures j < |s.admitted| && Within(key, from, from + window)(s.admitted[j])
    ensures from <= s.admitted[i].at <= s.admitted[j].start
    ensures s.admitted[i].epoch != s.admitted[j].epoch || s.admitted[i].start != s.admitted[j].start
  {
    var p := Within(key, from, from + window);
    i := Find(s.admitted, p);
    var e := s.admitted[i];
    if forall y :: 0 <= y < |s.admitted| && p(s.admitted[y]) ==> InWindow(key, e.epoch, e.start, 1)(s.admitted[y]) {
      OneWindowBound(s.admitted, p, e, limit);
    }
    j :| j < |s.admitted| && p(s.admitted[j]) && !InWindow(key, e.epoch, e.start, 1)(s.admitted[j]);
    assert Placed(s.admitted[j], window);
    WindowsFollow(s, i, j, window, clock);
    if s.admitted[i].at > s.admitted[j].start {
      i, j := j, i;
    }
  }

  // ----- traces -----

  ghost predicate Ordered<K>(es: seq<Event<K>>, from: Time) {
    forall i :: 0 <= i < |es| ==> from <= TimeOf(es[i]) && (i > 0 ==> TimeOf(es[i - 1]) <= TimeOf(es[i]))
  }

  ghost predicate Limited<K>(es: seq<Event<K>>, limit: int) {
    forall i :: 0 <= i < |es| && es[i].Ask? ==> es[i].request.limit <= limit
  }

  function LastTime<K>(es: seq<Event<K>>, from: Time): Time {
    if es == [] then from else TimeOf(es[|es| - 1])
  }

  lemma {:induction false} TraceSound<K(!new)>(es: seq<Event<K>>, limit: nat, window: Time, from: Time)
    requires Ordered(es, from) && Limited(es, limit) && window > 0.0
    ensures Sound(HandleAll(NoCounters(), es, window), limit, window, LastTime(es, from))
  {
    if es != [] {
      TraceSound(es[..|es| - 1], limit, window, from);
      var s := HandleAll(NoCounters(), es[..|es| - 1], window);
      HandleSound(s, limit, window, LastTime(es[..|es| - 1], from), es[|es| - 1]);
    }
  }

  /** Over any trace of calls and deletions, in any interval of the window's length. */
  lemma TraceBound<K(!new)>(es: seq<Event<K>>, limit: nat, window: Time, begin: Time, key: K, from: Time)
    requires Ordered(es, begin) && Limited(es, limit) && window > 0.0
    ensures var s := HandleAll(NoCounters(), es, window);
      CountWithin(s.admitted, key, from, from + window)
        <= if limit == 0 then 0 else (DropsWithin(s, key, from, from + window) + 2) * limit - 1
  {
    TraceSound(es, limit, window, begin);
    IntervalBound(HandleAll(NoCounters(), es, window), key, from, limit, window, LastTime(es, begin));
  }

  // ----- the bound is reached -----

  /** `n` equal calls. */
  function Burst(limit: nat, at: Time, n: nat): seq<Event<Id>> {
    seq(n, _ => Ask(Request(0, limit, at)))
  }

  /** What the live window of key 0 has counted. */
  function Used(s: Counters<Id>, at: Time): nat {
    if 0 in s.live && at < s.live[0].expires then s.live[0].count else 0
  }

  lemma {:induction false} HandleSplit<K>(s: Counters<K>, xs: seq<Event<K>>, ys: seq<Event<K>>, window: Time)
    ensures HandleAll(s, xs + ys, window) == HandleAll(HandleAll(s, xs, window), ys, window)
  {
    if ys == [] {
      assert xs + ys == xs;
    } else {
      var n := |ys| - 1;
      assert (xs + ys)[..|xs + ys| - 1] == xs + ys[..n];
      HandleSplit(s, xs, ys[..n], window);
    }
  }

  lemma AskOnce(s: Counters<Id>, limit: nat, at: Time, window: Time, from: Time, to: Time)
    requires window > 0.0 && Used(s, at) < limit
    ensures var s1 := Serve(s, Request(0, limit, at), window);
      && Used(s1, at) == Used(s, at) + 1 && s1.drops == s.drops && 0 in s1.live
      && s1.live[0].expires == (if Used(s, at) > 0 then s.live[0].expires else at + window)
      && CountWithin(s1.admitted, 0, from, to) == CountWithin(s.admitted, 0, from, to) + if from <= at < to then 1 else 0
    requires 0 in s.live ==> s.live[0].count >= 1
  {
    CountAppend(s.admitted, Admitted(s, Request(0, limit, at), window), Within(0, from, to));
  }

  /** A burst that fits into its window is admitted whole. */
  lemma {:induction false} BurstAdmitted(
      s: Counters<Id>, limit: nat, at: Time, n: nat, window: Time, from: Time, to: Time)
    requires window > 0.0 && Used(s, at) + n <= limit && (0 in s.live ==> s.live[0].count >= 1)
    ensures var s1 := HandleAll(s, Burst(limit, at, n), window);
      && Used(s1, at) == Used(s, at) + n && s1.drops == s.drops
      && CountWithin(s1.admitted, 0, from, to) == CountWithin(s.admitted, 0, from, to) + (if from <= at < to then n else 0)
      && (0 in s1.live ==> s1.live[0].count >= 1)
      && (if n == 0 then s1 == s
          else 0 in s1.live && s1.live[0].expires == if Used(s, at) > 0 then s.live[0].expires else at + window)
  {
    var es := Burst(limit, at, n);
    if n > 0 {
      assert es[..n - 1] == Burst(limit, at, n - 1);
      BurstAdmitted(s, limit, at, n - 1, window, from, to);
      AskOnce(HandleAll(s, es[..n - 1], window), limit, at, window, from, to);
    }
  }

  /** Deletions at one moment, each followed by a full burst. */
  function Rounds(limit: nat, at: Time, k: nat): seq<Event<Id>> {
    if k == 0 then [] else Rounds(limit, at, k - 1) + ([Delete(0, at)] + Burst(limit, at, limit))
  }

  lemma RoundAdmitted(s: Counters<Id>, limit: nat, at: Time, window: Time, from: Time, to: Time)
    requires window > 0.0 && from <= at < to
    ensures var s1 := HandleAll(s, [Delete(0, at)] + Burst(limit, at, limit), window);
      && CountWithin(s1.admitted, 0, from, to) == CountWithin(s.admitted, 0, from, to) + limit
      && DropsWithin(s1, 0, from, to) == DropsWithin(s, 0, from, to) + 1
  {
    HandleSplit(s, [Delete(0, at)], Burst(limit, at, limit), window);
    assert [Delete(0, at)][..0] == [];
    var s1 := Drop(s, {0}, at);
    assert HandleAll(s, [Delete(0, at)], window) == s1;
    CountAppend(DropsOf(s, 0), at, Between(from, to));
    BurstAdmitted(s1, limit, at, limit, window, from, to);
  }

  lemma OneMoreTime(k: nat, limit: nat)
    requires k > 0
    ensures k * limit == (k - 1) * limit + limit
  {
  }

  lemma {:induction false} RoundsAdmitted(
      s: Counters<Id>, limit: nat, at: Time, k: nat, window: Time, from: Time, to: Time)
    requires window > 0.0 && from <= at < to
    ensures var s1 := HandleAll(s, Rounds(limit, at, k), window);
      && CountWithin(s1.admitted, 0, from, to) == CountWithin(s.admitted, 0, from, to) + k * limit
      && DropsWithin(s1, 0, from, to) == DropsWithin(s, 0, from, to) + k
  {
    if k > 0 {
      RoundsAdmitted(s, limit, at, k - 1, window, from, to);
      HandleSplit(s, Rounds(limit, at, k - 1), [Delete(0, at)] + Burst(limit, at, limit), window);
      RoundAdmitted(HandleAll(s, Rounds(limit, at, k - 1), window), limit, at, window, from, to);
      OneMoreTime(k, limit);
    }
  }

  /** One call at 0, a burst of `limit - 1` late in its window, `limit` calls when
      the window has passed, and then the rounds. */
  function Reaching(limit: nat, late: Time, window: Time, k: nat): seq<Event<Id>>
    requires limit >= 1
  {
    Burst(limit, 0.0, 1) + (Burst(limit, late, limit - 1) + (Burst(limit, window, limit) + Rounds(limit, window, k)))
  }

  lemma {:induction false} RoundsTimes(limit: nat, at: Time, k: nat)
    ensures forall i :: 0 <= i < |Rounds(limit, at, k)| ==>
      var e := Rounds(limit, at, k)[i]; TimeOf(e) == at && (e.Ask? ==> e.request.limit == limit)
  {
    if k > 0 {
      RoundsTimes(limit, at, k - 1);
    }
  }

  /** The trace of `BoundIsReached` is one of those `TraceBound` speaks of. */
  lemma ReachingTraceIsOrdered(limit: nat, window: Time, late: Time, k: nat)
    requires limit >= 1 && 0.0 < late < window
    ensures Ordered(Reaching(limit, late, window, k), 0.0) && Limited(Reaching(limit, late, window, k), limit)
  {
    var es := Reaching(limit, late, window, k);
    RoundsTimes(limit, window, k);
    forall i | 0 <= i < |es|
      ensures TimeOf(es[i]) == (if i == 0 then 0.0 else if i < limit then late else window)
      ensures es[i].Ask? ==> es[i].request.limit == limit
    {
      if i >= 2 * limit {
        assert es[i] == Rounds(limit, window, k)[i - 2 * limit];
      }
    }
  }

  /** The part before the rounds fills 2 * limit - 1. */
  lemma TwoBurstsAdmitted(s: Counters<Id>, limit: nat, window: Time, from: Time) returns (s3: Counters<Id>)
    requires limit >= 1 && 0.0 < from < window && s == NoCounters()
    ensures s3 == HandleAll(HandleAll(HandleAll(s, Burst(limit, 0.0, 1), window), Burst(limit, from, limit - 1), window),
                            Burst(limit, window, limit), window)
    ensures CountWithin(s3.admitted, 0, from, from + window) == 2 * limit - 1 && DropsWithin(s3, 0, from, from + window) == 0
  {
    var to := from + window;
    BurstAdmitted(s, limit, 0.0, 1, window, from, to);
    var s1 := HandleAll(s, Burst(limit, 0.0, 1), window);
    assert Used(s1, from) == 1;
    BurstAdmitted(s1, limit, from, limit - 1, window, from, to);
    var s2 := HandleAll(s1, Burst(limit, from, limit - 1), window);
    assert Used(s2, window) == 0;
    BurstAdmitted(s2, limit, window, limit, window, from, to);
    s3 := HandleAll(s2, Burst(limit, window, limit), window);
  }

  lemma ReachingSplit(s: Counters<Id>, limit: nat, window: Time, late: Time, k: nat)
    requires limit >= 1
    ensures HandleAll(s, Reaching(limit, late, window, k), window)
      == HandleAll(HandleAll(HandleAll(HandleAll(s, Burst(limit, 0.0, 1), window), Burst(limit, late, limit - 1), window),
                             Burst(limit, window, limit), window), Rounds(limit, window, k), window)
  {
    var a, b, c, d := Burst(limit, 0.0, 1), Burst(limit, late, limit - 1), Burst(limit, window, limit), Rounds(limit, window, k);
    HandleSplit(s, a, b + (c + d), window);
    HandleSplit(HandleAll(s, a, window), b, c + d, window);
    HandleSplit(HandleAll(HandleAll(s, a, window), b, window), c, d, window);
  }

  lemma RoundsOnTop(s: Counters<Id>, limit: nat, window: Time, from: Time, k: nat)
    requires 0.0 < from < window && CountWithin(s.admitted, 0, from, from + window) == 2 * limit - 1
    requires DropsWithin(s, 0, from, from + window) == 0
    ensures var s1 := HandleAll(s, Rounds(limit, window, k), window);
      && DropsWithin(s1, 0, from, from + window) == k
      && CountWithin(s1.admitted, 0, from, from + window) == (k + 2) * limit - 1
  {
    RoundsAdmitted(s, limit, window, k, window, from, from + window);
    Multiples(k, limit);
  }

  /** For every limit, window and number of deletions the bound is attained. */
  lemma BoundIsReached(s: Counters<Id>, limit: nat, window: Time, from: Time, k: nat)
    requires limit >= 1 && 0.0 < from < window && s == NoCounters()
    ensures var s1 := HandleAll(s, Reaching(limit, from, window, k), window);
      && DropsWithin(s1, 0, from, from + window) == k
      && CountWithin(s1.admitted, 0, from, from + window) == (k + 2) * limit - 1
  {
    var s3 := TwoBurstsAdmitted(s, limit, window, from);
    RoundsOnTop(s3, limit, window, from, k);
    ReachingSplit(s, limit, window, from, k);
  }

  // ----- the Redis-backed limiter -----

  class Limiter<K(!new, ==)> {
    var store: map<K, nat>
    var expires: map<K, Time>
    const window: Time
    ghost var admitted: seq<Admission<K>>
    ghost var drops: map<K, seq<Time>>

    ghost predicate Valid()
      reads this
    {
      store.Keys == expires.Keys && forall k :: k in store ==> store[k] >= 1
    }

    ghost function Snapshot(): Counters<K>
      reads this
      requires Valid()
    {
      Counters(map k | k in store :: Counter(store[k], expires[k]), admitted, drops)
    }

    constructor (window: Time)
      ensures Valid() && this.window == window && Snapshot() == NoCounters()
    {
      this.window := window;
      store, expires, admitted, drops := map[], map[], [], map[];
    }

    /** INCR drops an expired key first; the first increment sets the expiry. */
    method IncrWithExpire(key: K, now: Time) returns (value: nat)
      requires Valid()
      modifies this`store, this`expires
      ensures Valid()
      ensures var c := Incremented(old(Snapshot()), key, window, now);
        value == c.count && Snapshot() == old(Snapshot()).(live := old(Snapshot()).live[key := c])
    {
      ghost var before := Snapshot();
      if key in expires && expires[key] <= now {
        store := store - {key};
        expires := expires - {key};
      }
      value := (if key in store then store[key] else 0) + 1;
      store := store[key := value];
      if value == 1 {
        expires := expires[key := now + window];
      }
      assert Snapshot().live == before.live[key := Incremented(before, key, window, now)];
    }

    method CheckRateLimit(key: K, limit: int, now: Time) returns (allowed: bool)
      requires Valid()
      modifies this
      ensures Valid()
      ensures Snapshot() == Serve(old(Snapshot()), Request(key, limit, now), window)
      ensures allowed <==> Admits(old(Snapshot()), Request(key, limit, now), window)
    {
      ghost var before := Snapshot();
      var value := IncrWithExpire(key, now);
      allowed := value <= limit;
      if allowed {
        admitted := admitted + [Admitted(before, Request(key, limit, now), window)];
      }
    }

    /** Raises (here: refuses) over the limit; the switch turns counting off. */
    method EnforceRateLimit(switchedOn: bool, key: K, limit: int, now: Time) returns (allowed: bool)
      requires Valid()
      modifies this
      ensures Valid()
      ensures Snapshot() == if switchedOn then Serve(old(Snapshot()), Request(key, limit, now), window) else old(Snapshot())
      ensures allowed <==> switchedOn ==> Admits(old(Snapshot()), Request(key, limit, now), window)
    {
      allowed := true;
      if switchedOn {
        allowed := CheckRateLimit(key, limit, now);
      }
    }

    /** DEL from outside the limiter. */
    method Delete(key: K, now: Time)
      requires Valid()
      modifies this
      ensures Valid() && Snapshot() == Drop(old(Snapshot()), {key}, now)
    {
      ghost var before := Snapshot();
      store := store - {key};
      expires := expires - {key};
      drops := drops[key := DropsOf(before, key) + [now]];
      assert Snapshot().live == Drop(before, {key}, now).live;
      assert drops == Drop(before, {key}, now).drops;
    }
  }
}
