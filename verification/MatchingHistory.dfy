/** Properties of whole matching histories: spacing and conservation of
    matches, no missed match, no match after an exclusion, the lasting effect of
    a generic exit, and the one-way life of rooms. */
module MatchingHistory {
  import opened Basics
  import opened MatchingModel
  import opened MatchingChoice
  import opened MatchingInvariant

  // ----- the record of matches -----

  ghost function PairAt(w: World, r: Id): Pair
    requires r in w.rooms
  {
    Pair(w.rooms[r].a, w.rooms[r].b)
  }

  /** All match rooms ever created for a pair: rooms are never deleted. */
  ghost function RoomsFor(w: World, p: Pair): set<Id> {
    set r | r in w.rooms && w.rooms[r].kind == MATCH && PairAt(w, r) == p
  }

  ghost function MatchCount(w: World, p: Pair): nat {
    if p in w.recent then w.recent[p].matchCount else 0
  }

  ghost predicate LatestMatch(w: World, p: Pair, r: Id)
    requires p in w.recent
  {
    r in RoomsFor(w, p) && w.rooms[r].createdAt == w.recent[p].lastMatchedAt
  }

  /** A recent row counts the pair's match rooms and dates the latest one. */
  ghost predicate RecentOk(w: World) {
    && (forall p :: MatchCount(w, p) == |RoomsFor(w, p)|)
    && (forall p :: p in w.recent ==> exists r :: LatestMatch(w, p, r))
    && (forall r :: IsMatchRoom(w, r) ==>
          PairAt(w, r) in w.recent && w.rooms[r].createdAt <= w.recent[PairAt(w, r)].lastMatchedAt)
  }

  /** The two participants recorded for a match share purpose ground or topic. */
  ghost predicate CommonGround(w: World, r: Id) {
    r in w.matches && r in w.rooms
    && var ps := w.matches[r].participants;
       var a, b := w.rooms[r].a, w.rooms[r].b;
       a in ps && b in ps && SharesGround(ps[a].purpose, ps[a].topic, ps[b].purpose, ps[b].topic)
  }

  ghost predicate SpacedPair(w: World, r: Id, q: Id)
    requires r in w.rooms && q in w.rooms
  {
    var gap := w.rooms[q].createdAt - w.rooms[r].createdAt;
    gap >= REMATCH_FORBIDDEN_SECONDS && (gap < REMATCH_PENALTY_SECONDS ==> CommonGround(w, q))
  }

  /** A later match of the same pair is ten minutes apart, and within a day it
      has common ground. */
  ghost predicate Spaced(w: World) {
    forall r, q | IsMatchRoom(w, r) && IsMatchRoom(w, q) && r != q && PairAt(w, r) == PairAt(w, q)
                  && w.rooms[r].createdAt <= w.rooms[q].createdAt :: SpacedPair(w, r, q)
  }

  /** Any two waiting users are excluded from each other or met before. */
  ghost predicate NoMissedMatch(w: World) {
    forall u, v :: Waiting(w, u) && Waiting(w, v) && u != v ==> Excluded(w, u, v) || PairOf(u, v) in w.recent
  }

  // ----- which steps add to the record -----

  ghost predicate SameParticipants(m: Match, m1: Match) {
    m1.participants.Keys == m.participants.Keys
    && forall u :: u in m.participants ==>
         m1.participants[u].purpose == m.participants[u].purpose && m1.participants[u].topic == m.participants[u].topic
  }

  ghost predicate SameRecord(w: World, w1: World) {
    && w1.recent == w.recent
    && (forall r :: IsMatchRoom(w1, r) <==> IsMatchRoom(w, r))
    && (forall r :: IsMatchRoom(w, r) ==> PairAt(w1, r) == PairAt(w, r) && w1.rooms[r].createdAt == w.rooms[r].createdAt)
    && (forall r :: r in w.matches ==> r in w1.matches && SameParticipants(w.matches[r], w1.matches[r]))
  }

  ghost predicate Grows(w: World, w1: World) {
    w.blocks <= w1.blocks && w.noRematch <= w1.noRematch && w.recent.Keys <= w1.recent.Keys
  }

  lemma SameRecordRooms(w: World, w1: World, p: Pair)
    requires SameRecord(w, w1)
    ensures RoomsFor(w1, p) == RoomsFor(w, p)
  {
    forall r
      ensures r in RoomsFor(w1, p) <==> r in RoomsFor(w, p)
    {
      assert IsMatchRoom(w1, r) <==> IsMatchRoom(w, r);
    }
  }

  lemma SameRecordCounts(w: World, w1: World, p: Pair)
    requires SameRecord(w, w1) && RecentOk(w)
    ensures MatchCount(w1, p) == |RoomsFor(w1, p)|
    ensures p in w1.recent ==> exists r :: LatestMatch(w1, p, r)
  {
    SameRecordRooms(w, w1, p);
    assert MatchCount(w, p) == |RoomsFor(w, p)|;
    if p in w1.recent {
      var r :| LatestMatch(w, p, r);
      assert LatestMatch(w1, p, r);
    }
  }

  lemma SameRecordRecent(w: World, w1: World)
    requires SameRecord(w, w1) && RecentOk(w)
    ensures RecentOk(w1)
  {
    forall p
      ensures MatchCount(w1, p) == |RoomsFor(w1, p)|
      ensures p in w1.recent ==> exists r :: LatestMatch(w1, p, r)
    {
      SameRecordCounts(w, w1, p);
    }
    forall r | IsMatchRoom(w1, r)
      ensures PairAt(w1, r) in w1.recent && w1.rooms[r].createdAt <= w1.recent[PairAt(w1, r)].lastMatchedAt
    {
      assert IsMatchRoom(w, r);
    }
  }

  lemma SameRecordGround(w: World, w1: World, r: Id)
    requires SameRecord(w, w1) && IsMatchRoom(w, r) && CommonGround(w, r)
    ensures CommonGround(w1, r)
  {
    assert SameParticipants(w.matches[r], w1.matches[r]);
    assert PairAt(w1, r) == PairAt(w, r);
  }

  lemma SameRecordSpaced(w: World, w1: World)
    requires SameRecord(w, w1) && Spaced(w)
    ensures Spaced(w1)
  {
    forall r, q | IsMatchRoom(w1, r) && IsMatchRoom(w1, q) && r != q && PairAt(w1, r) == PairAt(w1, q)
                  && w1.rooms[r].createdAt <= w1.rooms[q].createdAt
      ensures SpacedPair(w1, r, q)
    {
      assert IsMatchRoom(w, r) && IsMatchRoom(w, q);
      assert SpacedPair(w, r, q);
      if CommonGround(w, q) {
        SameRecordGround(w, w1, q);
      }
    }
  }

  /** The world a join looks for a peer in. */
  ghost function Queued(w: World, u: Id, p: Purpose, t: Topic, now: Time): World {
    Enqueue(CleanupStale(w, now).(clock := now), u, p, t, now)
  }

  ghost predicate JoinQueues(w: World, u: Id, now: Time) {
    !Seats(RowOf(CleanupStale(w, now), u))
  }

  /** Whom the call matches with its caller, if anyone. */
  ghost function Matched(w: World, c: Call, now: Time): Option<Id> {
    if c.JoinCall? && JoinQueues(w, c.u, now) then Choose(Queued(w, c.u, c.purpose, c.topic, now), c.u, now) else None
  }

  lemma QueuedRecord(w: World, u: Id, p: Purpose, t: Topic, now: Time)
    ensures SameRecord(w, Queued(w, u, p, t, now)) && Grows(w, Queued(w, u, p, t, now))
    ensures SameRecord(w, CleanupStale(w, now).(clock := now)) && Grows(w, CleanupStale(w, now).(clock := now))
  {
  }

  lemma JoinRecord(w: World, u: Id, p: Purpose, t: Topic, now: Time)
    ensures var w2 := Queued(w, u, p, t, now);
      var w3 := Join(w, u, p, t, now);
      match Matched(w, JoinCall(u, p, t), now)
      case None => w3 == if JoinQueues(w, u, now) then w2 else CleanupStale(w, now).(clock := now)
      case Some(v) => JoinQueues(w, u, now) && w3 == Pairing(w2, u, v, now)
  {
  }

  lemma EndRoomRecord(w: World, u: Id, r: Id, action: EndAction, now: Time)
    requires r in w.rooms
    ensures SameRecord(w, EndRoom(w, u, r, action, now).(clock := now))
    ensures Grows(w, EndRoom(w, u, r, action, now))
  {
  }

  /** Calls that only touch state rows and the queue. */
  lemma RowCallRecord(w: World, c: Call, now: Time)
    requires c.StatusCall? || c.HeartbeatCall? || c.CancelCall? || c.DisconnectCall?
    ensures SameRecord(w, Step(w, c, now))
    ensures Grows(w, Step(w, c, now))
  {
    var w1 := Step(w, c, now);
    assert w1 == w.(rows := w1.rows, queue := w1.queue, clock := now);
  }

  lemma DestroyRoomRecord(w: World, r: Id, now: Time)
    requires r in w.rooms
    ensures SameRecord(w, DestroyRoom(w, r, now).(clock := now))
  {
  }

  lemma OpenRoomRecord(w: World, a: Id, b: Id, ttl: Option<Time>, now: Time)
    requires w.nextRoom !in w.rooms
    ensures SameRecord(w, OpenRoom(w, a, b, ttl, now))
  {
  }

  lemma TimeoutRecord(w: World, now: Time)
    ensures SameRecord(w, Timeout(w, now))
  {
  }

  lemma EndRecord(w: World, u: Id, r: Id, action: EndAction, now: Time)
    ensures SameRecord(w, End(w, u, r, action, now)) && Grows(w, End(w, u, r, action, now))
  {
    if r in w.rooms {
      EndRoomRecord(w, u, r, action, now);
    }
  }

  lemma ExitRecord(w: World, u: Id, r: Id, friends: bool, now: Time)
    ensures SameRecord(w, Exit(w, u, r, friends, now)) && Grows(w, Exit(w, u, r, friends, now))
  {
    if r in w.rooms {
      DestroyRoomRecord(w, r, now);
    }
  }

  lemma BlockRoomRecord(w: World, u: Id, r: Id, friends: bool, now: Time)
    ensures SameRecord(w, BlockRoom(w, u, r, friends, now)) && Grows(w, BlockRoom(w, u, r, friends, now))
  {
    if r in w.rooms {
      if w.rooms[r].kind == MATCH {
        EndRoomRecord(w, u, r, BLOCK, now);
      } else {
        DestroyRoomRecord(Exclude(w, u, w.rooms[r].Peer(u), BLOCK), r, now);
      }
    }
  }

  /** Only a successful join adds to the record. */
  lemma StepRecord(w: World, c: Call, now: Time)
    requires w.nextRoom !in w.rooms
    ensures Matched(w, c, now).None? ==> SameRecord(w, Step(w, c, now)) && Grows(w, Step(w, c, now))
    ensures Matched(w, c, now).Some? ==>
      var w2 := Queued(w, c.u, c.purpose, c.topic, now);
      SameRecord(w, w2) && Grows(w, w2) && Step(w, c, now) == Pairing(w2, c.u, Matched(w, c, now).value, now)
  {
    match c
    case StatusCall(u) => RowCallRecord(w, c, now);
    case JoinCall(u, p, t) =>
      QueuedRecord(w, u, p, t, now);
      JoinRecord(w, u, p, t, now);
    case HeartbeatCall(u) => RowCallRecord(w, c, now);
    case CancelCall(u) => RowCallRecord(w, c, now);
    case DisconnectCall(u) => RowCallRecord(w, c, now);
    case EndCall(u, r, action) => EndRecord(w, u, r, action, now);
    case ExitCall(u, r, friends) => ExitRecord(w, u, r, friends, now);
    case BlockRoomCall(u, r, friends) => BlockRoomRecord(w, u, r, friends, now);
    case TimeoutCall => TimeoutRecord(w, now);
    case OpenRoomCall(a, b, ttl) => OpenRoomRecord(w, a, b, ttl, now);
    case PlaceBlockCall(u, v) =>
  }

  lemma StepGrows(w: World, c: Call, now: Time)
    requires w.nextRoom !in w.rooms
    ensures Grows(w, Step(w, c, now))
  {
    StepRecord(w, c, now);
  }

  /** What is known when a join pairs `u` with `v`. */
  lemma MatchedFacts(w: World, c: Call, now: Time)
    requires Consistent(w) && w.clock <= now && Matched(w, c, now).Some?
    ensures var w2 := Queued(w, c.u, c.purpose, c.topic, now);
      var v := Matched(w, c, now).value;
      && Consistent(w2) && w2.clock == now
      && c.u != v && Waiting(w2, c.u) && Waiting(w2, v)
      && !Excluded(w2, c.u, v) && Score(w2, c.u, v, now) >= 0.0
      && w2.nextRoom !in w2.rooms && w2.nextRoom !in w2.matches
  {
    CleanupKeeps(w, now);
    var w1 := CleanupStale(w, now);
    ClockKeeps(w1, now);
    EnqueueKeeps(w1.(clock := now), c.u, c.purpose, c.topic, now);
    var w2 := Queued(w, c.u, c.purpose, c.topic, now);
    ChooseIsBest(w2, c.u, now);
    NextRoomIsNew(w2);
  }

  // ----- conservation -----

  lemma PairingRooms(w: World, u: Id, v: Id, now: Time, p: Pair)
    requires w.nextRoom !in w.rooms && u != v
    ensures RoomsFor(Pairing(w, u, v, now), p)
         == if p == PairOf(u, v) then RoomsFor(w, p) + {w.nextRoom} else RoomsFor(w, p)
  {
  }

  lemma PairingCounts(w: World, u: Id, v: Id, now: Time, p: Pair)
    requires RecentOk(w) && u != v && w.nextRoom !in w.rooms
    ensures MatchCount(Pairing(w, u, v, now), p) == |RoomsFor(Pairing(w, u, v, now), p)|
  {
    PairingRooms(w, u, v, now, p);
    assert MatchCount(w, p) == |RoomsFor(w, p)|;
  }

  lemma PairingLatest(w: World, u: Id, v: Id, now: Time, p: Pair)
    requires RecentOk(w) && u != v && w.nextRoom !in w.rooms
    ensures p in Pairing(w, u, v, now).recent ==> exists r :: LatestMatch(Pairing(w, u, v, now), p, r)
  {
    var w1 := Pairing(w, u, v, now);
    PairingRooms(w, u, v, now, p);
    if p == PairOf(u, v) {
      assert LatestMatch(w1, p, w.nextRoom);
    } else if p in w1.recent {
      var r :| LatestMatch(w, p, r);
      assert LatestMatch(w1, p, r);
    }
  }

  lemma PairingRecent(w: World, u: Id, v: Id, now: Time)
    requires Consistent(w) && w.clock == now && u != v && RecentOk(w) && w.nextRoom !in w.rooms
    ensures RecentOk(Pairing(w, u, v, now))
  {
    var w1 := Pairing(w, u, v, now);
    forall p
      ensures MatchCount(w1, p) == |RoomsFor(w1, p)|
      ensures p in w1.recent ==> exists r :: LatestMatch(w1, p, r)
    {
      PairingCounts(w, u, v, now, p);
      PairingLatest(w, u, v, now, p);
    }
    forall r | IsMatchRoom(w1, r)
      ensures PairAt(w1, r) in w1.recent && w1.rooms[r].createdAt <= w1.recent[PairAt(w1, r)].lastMatchedAt
    {
      if r != w.nextRoom {
        assert IsMatchRoom(w, r) && RoomOk(w, r);
      }
    }
  }

  // ----- spacing -----

  lemma PairingGround(w: World, u: Id, v: Id, now: Time)
    requires Waiting(w, u) && Waiting(w, v) && RowOk(w, u) && RowOk(w, v) && u != v
    requires Score(w, u, v, now) >= 0.0
    ensures PairOf(u, v) in w.recent ==>
      var age := now - w.recent[PairOf(u, v)].lastMatchedAt;
      age >= REMATCH_FORBIDDEN_SECONDS
      && (age < REMATCH_PENALTY_SECONDS ==> CommonGround(Pairing(w, u, v, now), w.nextRoom))
  {
  }

  lemma PairingKeepsGround(w: World, u: Id, v: Id, now: Time, q: Id)
    requires CommonGround(w, q) && q != w.nextRoom
    ensures CommonGround(Pairing(w, u, v, now), q)
  {
  }

  lemma PairingSpaced(w: World, u: Id, v: Id, now: Time)
    requires RowsOk(w) && Waiting(w, u) && Waiting(w, v) && u != v
    requires w.nextRoom !in w.rooms && w.nextRoom !in w.matches
    requires forall r :: r in w.rooms ==> w.rooms[r].createdAt <= now
    requires RecentOk(w) && Spaced(w) && Score(w, u, v, now) >= 0.0
    ensures Spaced(Pairing(w, u, v, now))
  {
    var w1 := Pairing(w, u, v, now);
    assert RowOk(w, u) && RowOk(w, v);
    PairingGround(w, u, v, now);
    forall q | IsMatchRoom(w, q) && PairAt(w, q) == PairOf(u, v)
      ensures w.rooms[q].createdAt < now && SpacedPair(w1, q, w.nextRoom)
    {
      assert w.rooms[q].createdAt <= w.recent[PairAt(w, q)].lastMatchedAt;
    }
    forall r, q | IsMatchRoom(w, r) && IsMatchRoom(w, q) && r != q && PairAt(w, r) == PairAt(w, q)
                  && w.rooms[r].createdAt <= w.rooms[q].createdAt
      ensures SpacedPair(w1, r, q)
    {
      assert SpacedPair(w, r, q);
      if CommonGround(w, q) {
        PairingKeepsGround(w, u, v, now, q);
      }
    }
    forall r | IsMatchRoom(w1, r) && r != w.nextRoom
      ensures IsMatchRoom(w, r) && PairAt(w1, r) == PairAt(w, r)
    {
    }
  }

  // ----- no missed match -----

  /** After a join that found nobody, everyone still waiting is out of reach of
      the caller: the cleanup left only fresh waiters, and a fresh eligible
      waiter is refused only for a recent match. */
  lemma UnmatchedJoinMissesNobody(w: World, c: Call, now: Time, x: Id)
    requires Consistent(w) && w.clock <= now
    requires c.JoinCall? && JoinQueues(w, c.u, now) && Matched(w, c, now).None?
    requires Waiting(Step(w, c, now), x) && x != c.u
    ensures var w2 := Step(w, c, now); Excluded(w2, c.u, x) || PairOf(c.u, x) in w2.recent
  {
    CleanupKeeps(w, now);
    var w2 := Queued(w, c.u, c.purpose, c.topic, now);
    assert Waiting(CleanupStale(w, now), x);
    assert x in Candidates(w2, c.u, now);
    ChooseIsBest(w2, c.u, now);
    if !Excluded(w2, c.u, x) {
      assert Eligible(w2, c.u, x, now);
      ScoreBounds(w2, c.u, x, now);
    }
  }

  lemma EndingWaiters(w: World, u: Id, r: Id, action: EndAction, now: Time, x: Id)
    requires r in w.rooms
    ensures Waiting(EndRoom(w, u, r, action, now), x) ==> Waiting(w, x)
    ensures Waiting(Exclude(w, u, x, action), x) ==> Waiting(w, x)
  {
  }

  lemma JoinWaiters(w: World, u: Id, p: Purpose, t: Topic, now: Time, x: Id)
    requires Waiting(Join(w, u, p, t, now), x)
    ensures if u == x then JoinQueues(w, u, now) && Matched(w, JoinCall(u, p, t), now).None? else Waiting(w, x)
  {
    JoinRecord(w, u, p, t, now);
    if JoinQueues(w, u, now) {
      ChooseIsBest(Queued(w, u, p, t, now), u, now);
    }
  }

  /** Nobody but a joining caller starts to wait. */
  lemma StepWaiters(w: World, c: Call, now: Time, x: Id)
    requires Waiting(Step(w, c, now), x)
    ensures if c.JoinCall? && c.u == x then JoinQueues(w, x, now) && Matched(w, c, now).None? else Waiting(w, x)
  {
    match c
    case StatusCall(u) =>
    case JoinCall(u, p, t) => JoinWaiters(w, u, p, t, now, x);
    case HeartbeatCall(u) =>
    case CancelCall(u) =>
    case DisconnectCall(u) =>
    case EndCall(u, r, action) =>
      if r in w.rooms {
        EndingWaiters(w, u, r, action, now, x);
      }
    case ExitCall(u, r, friends) =>
    case BlockRoomCall(u, r, friends) =>
      if r in w.rooms {
        EndingWaiters(w, u, r, BLOCK, now, x);
      }
    case TimeoutCall =>
    case OpenRoomCall(a, b, ttl) =>
    case PlaceBlockCall(u, v) =>
  }

  lemma ExclusionIsMutual(w: World, u: Id, v: Id)
    ensures Excluded(w, u, v) <==> Excluded(w, v, u)
    ensures PairOf(u, v) == PairOf(v, u)
  {
  }

  lemma StepNoMissedMatch(w: World, c: Call, now: Time)
    requires Consistent(w) && w.clock <= now && NoMissedMatch(w)
    ensures NoMissedMatch(Step(w, c, now))
  {
    var w2 := Step(w, c, now);
    NextRoomIsNew(w);
    StepGrows(w, c, now);
    forall u, v | Waiting(w2, u) && Waiting(w2, v) && u != v
      ensures Excluded(w2, u, v) || PairOf(u, v) in w2.recent
    {
      StepWaiters(w, c, now, u);
      StepWaiters(w, c, now, v);
      if c.JoinCall? && c.u == u {
        UnmatchedJoinMissesNobody(w, c, now, v);
      } else if c.JoinCall? && c.u == v {
        UnmatchedJoinMissesNobody(w, c, now, u);
        ExclusionIsMutual(w2, u, v);
      } else {
        assert Excluded(w, u, v) || PairOf(u, v) in w.recent;
      }
    }
  }

  // ----- every reachable world -----

  ghost predicate Sound(w: World) {
    Consistent(w) && RecentOk(w) && Spaced(w) && NoMissedMatch(w)
  }

  lemma StepSound(w: World, c: Call, now: Time)
    requires Sound(w) && w.clock <= now
    ensures Sound(Step(w, c, now)) && Step(w, c, now).clock == now
  {
    StepKeeps(w, c, now);
    NextRoomIsNew(w);
    StepRecord(w, c, now);
    StepNoMissedMatch(w, c, now);
    if Matched(w, c, now).None? {
      SameRecordRecent(w, Step(w, c, now));
      SameRecordSpaced(w, Step(w, c, now));
    } else {
      var w2 := Queued(w, c.u, c.purpose, c.topic, now);
      MatchedFacts(w, c, now);
      SameRecordRecent(w, w2);
      SameRecordSpaced(w, w2);
      assert forall r :: r in w2.rooms ==> RoomOk(w2, r);
      PairingRecent(w2, c.u, Matched(w, c, now).value, now);
      PairingSpaced(w2, c.u, Matched(w, c, now).value, now);
    }
  }

  lemma {:induction false} RunSound(w: World, h: History)
    requires Sound(w) && Timely(h, w.clock)
    ensures Sound(Run(w, h))
    decreases |h|
  {
    if h != [] {
      StepSound(w, h[0].1, h[0].0);
      RunSound(Step(w, h[0].1, h[0].0), h[1..]);
    }
  }

  /** Every world reached from an empty database is sound. */
  lemma ReachableSound(h: History)
    requires Timely(h, 0.0)
    ensures Sound(Run(EmptyWorld, h))
  {
    assert forall p :: RoomsFor(EmptyWorld, p) == {};
    RunSound(EmptyWorld, h);
  }

  // ----- exclusions are final -----

  lemma {:induction false} ExcludedNeverMatched(w: World, u: Id, v: Id, h: History)
    requires Consistent(w) && Timely(h, w.clock) && Excluded(w, u, v)
    ensures RoomsFor(Run(w, h), PairOf(u, v)) == RoomsFor(w, PairOf(u, v))
    decreases |h|
  {
    if h != [] {
      var c, now := h[0].1, h[0].0;
      var w1 := Step(w, c, now);
      StepKeeps(w, c, now);
      NextRoomIsNew(w);
      StepRecord(w, c, now);
      StepGrows(w, c, now);
      if Matched(w, c, now).None? {
        SameRecordRooms(w, w1, PairOf(u, v));
      } else {
        var w2 := Queued(w, c.u, c.purpose, c.topic, now);
        var x := Matched(w, c, now).value;
        MatchedFacts(w, c, now);
        ExclusionIsMutual(w, c.u, x);
        SameRecordRooms(w, w2, PairOf(u, v));
        PairingRooms(w2, c.u, x, now, PairOf(u, v));
      }
      ExcludedNeverMatched(w1, u, v, h[1..]);
    }
  }

  lemma EndingExcludes(w: World, u: Id, r: Id, action: EndAction, now: Time)
    requires r in w.rooms && w.rooms[r].a < w.rooms[r].b && EndError(w, u, r).None? && action != END
    ensures Excluded(End(w, u, r, action, now), u, w.rooms[r].Peer(u))
    ensures PairOf(u, w.rooms[r].Peer(u)) == PairAt(w, r)
    ensures RoomsFor(End(w, u, r, action, now), PairAt(w, r)) == RoomsFor(w, PairAt(w, r))
  {
    EndRecord(w, u, r, action, now);
    SameRecordRooms(w, End(w, u, r, action, now), PairAt(w, r));
  }

  /** After a room is ended with NO_REMATCH or BLOCK its two users never meet
      again, whatever happens later. */
  lemma NeverAgain(w: World, u: Id, r: Id, action: EndAction, now: Time, h: History)
    requires Consistent(w) && w.clock <= now && EndError(w, u, r).None? && action != END
    requires Timely(h, now)
    ensures RoomsFor(Run(End(w, u, r, action, now), h), PairAt(w, r)) == RoomsFor(w, PairAt(w, r))
  {
    StepKeeps(w, EndCall(u, r, action), now);
    assert RoomOk(w, r);
    EndingExcludes(w, u, r, action, now);
    ExcludedNeverMatched(End(w, u, r, action, now), u, w.rooms[r].Peer(u), h);
  }

  // ----- the lasting effect of a generic exit -----

  ghost predicate Stranded(w: World, u: Id) {
    u in w.rows && DeadEnd(w, w.rows[u])
  }

  /** The exit leaves both members ACTIVE in a destroyed room. */
  lemma ExitStrandsBoth(w: World, u: Id, r: Id, friends: bool, now: Time, x: Id)
    requires Consistent(w) && w.clock <= now && IsMatchRoom(w, r) && ExitError(w, u, r, friends, now).None?
    requires w.rooms[r].Has(x)
    ensures Stranded(Exit(w, u, r, friends, now), x)
  {
    assert RoomOk(w, r);
  }

  lemma JoinRowKept(w: World, u: Id, v: Id, p: Purpose, t: Topic, now: Time)
    requires Stranded(w, u)
    ensures u in Join(w, v, p, t, now).rows && Join(w, v, p, t, now).rows[u] == w.rows[u]
  {
    JoinRecord(w, v, p, t, now);
    if JoinQueues(w, v, now) {
      ChooseIsBest(Queued(w, v, p, t, now), v, now);
    }
  }

  /** A call other than the user's own status query leaves alone a row that
      sits in a dead room. */
  lemma SeatedRowKept(w: World, u: Id, c: Call, now: Time)
    requires Stranded(w, u) && c != StatusCall(u)
    ensures u in Step(w, c, now).rows && Step(w, c, now).rows[u] == w.rows[u]
  {
    match c
    case StatusCall(v) =>
    case JoinCall(v, p, t) => JoinRowKept(w, u, v, p, t, now);
    case HeartbeatCall(v) =>
    case CancelCall(v) =>
    case DisconnectCall(v) =>
    case EndCall(v, r, action) =>
      if EndError(w, v, r).None? {
        EndingRowKept(w, v, r, action, now, u);
      }
    case ExitCall(v, r, friends) =>
    case BlockRoomCall(v, r, friends) =>
      if BlockRoomError(w, v, r, friends, now).None? {
        EndingRowKept(w, v, r, BLOCK, now, u);
      }
    case TimeoutCall =>
    case OpenRoomCall(a, b, ttl) =>
    case PlaceBlockCall(x, v) =>
  }

  lemma EndingRowKept(w: World, v: Id, r: Id, action: EndAction, now: Time, u: Id)
    requires RoomLive(w, r) && Stranded(w, u)
    ensures u in EndRoom(w, v, r, action, now).rows && EndRoom(w, v, r, action, now).rows[u] == w.rows[u]
    ensures Exclude(w, v, w.rooms[r].Peer(v), action).rows == w.rows
  {
  }

  /** No call but the user's own status query frees a stranded user. */
  lemma StepStranded(w: World, u: Id, c: Call, now: Time)
    requires Consistent(w) && w.clock <= now && Stranded(w, u) && c != StatusCall(u)
    ensures Stranded(Step(w, c, now), u) && Step(w, c, now).rows[u] == w.rows[u]
  {
    assert RowOk(w, u);
    SeatedRowKept(w, u, c, now);
    StepRoom(w, c, now, w.rows[u].roomId.value);
  }

  lemma {:induction false} StrandedUntilStatus(w: World, u: Id, h: History)
    requires Consistent(w) && Timely(h, w.clock) && Stranded(w, u)
    requires forall i :: 0 <= i < |h| ==> h[i].1 != StatusCall(u)
    ensures Stranded(Run(w, h), u) && Run(w, h).rows[u] == w.rows[u]
    decreases |h|
  {
    if h != [] {
      StepStranded(w, u, h[0].1, h[0].0);
      StepKeeps(w, h[0].1, h[0].0);
      StrandedUntilStatus(Step(w, h[0].1, h[0].0), u, h[1..]);
    }
  }

  /** The status query frees the user, who can then queue again. */
  lemma StatusFrees(w: World, u: Id, now: Time, p: Purpose, t: Topic, later: Time)
    requires Consistent(w) && w.clock <= now <= later && Stranded(w, u)
    ensures var w1 := Status(w, u, now);
      w1.rows[u].status == IDLE && JoinQueues(w1, u, later)
    ensures var w2 := Join(Status(w, u, now), u, p, t, later);
      u in w2.rows && (w2.rows[u].status == WAITING || (w2.rows[u].status == ACTIVE && !Stranded(w2, u)))
  {
    StatusIdles(w, u, now);
    StepKeeps(w, StatusCall(u), now);
    IdleJoins(Status(w, u, now), u, p, t, later);
  }

  lemma StatusIdles(w: World, u: Id, now: Time)
    requires Stranded(w, u)
    ensures var w1 := Status(w, u, now);
      u in w1.rows && w1.rows[u].status == IDLE && w1.rows[u].roomId.None?
  {
  }

  lemma IdleJoins(w: World, u: Id, p: Purpose, t: Topic, now: Time)
    requires Consistent(w) && w.clock <= now && u in w.rows && w.rows[u].status == IDLE
    ensures JoinQueues(w, u, now)
    ensures var w1 := Join(w, u, p, t, now);
      u in w1.rows && (w1.rows[u].status == WAITING || (w1.rows[u].status == ACTIVE && !Stranded(w1, u)))
  {
    JoinRecord(w, u, p, t, now);
    ChooseIsBest(Queued(w, u, p, t, now), u, now);
  }

  // ----- rooms -----

  /** Rooms stay; their members, kind and creation time are fixed; an ended
      room stays exactly as it ended; a friend room never leaves ACTIVE. */
  ghost predicate RoomKept(w: World, w1: World, r: Id)
    requires r in w.rooms
  {
    && r in w1.rooms
    && w1.rooms[r].(status := w.rooms[r].status, destroyedAt := w.rooms[r].destroyedAt) == w.rooms[r]
    && (w.rooms[r].status != RoomActive ==> w1.rooms[r] == w.rooms[r])
    && (w.rooms[r].kind == FRIEND ==> w1.rooms[r].status == RoomActive)
  }

  lemma EndingRoomKept(w: World, u: Id, q: Id, action: EndAction, now: Time, r: Id)
    requires q in w.rooms && w.rooms[q].kind != FRIEND && r in w.rooms
    requires w.rooms[r].kind == FRIEND ==> w.rooms[r].status == RoomActive
    ensures RoomKept(w, EndRoom(w, u, q, action, now), r)
    ensures RoomKept(w, DestroyRoom(w, q, now), r)
    ensures RoomKept(w, DestroyRoom(Exclude(w, u, w.rooms[q].Peer(u), action), q, now), r)
  {
  }

  lemma DestroyingStepRoom(w: World, c: Call, now: Time, r: Id)
    requires RoomsOk(w) && r in w.rooms && RoomOk(w, r) && (c.EndCall? || c.ExitCall? || c.BlockRoomCall?)
    ensures RoomKept(w, Step(w, c, now), r)
  {
    match c
    case EndCall(u, q, action) =>
      if EndError(w, u, q).None? {
        EndingRoomKept(w, u, q, action, now, r);
      }
    case ExitCall(u, q, friends) =>
      if ExitError(w, u, q, friends, now).None? {
        EndingRoomKept(w, u, q, END, now, r);
      }
    case BlockRoomCall(u, q, friends) => BlockingStepRoom(w, u, q, friends, now, r);
  }

  lemma BlockingStepRoom(w: World, u: Id, q: Id, friends: bool, now: Time, r: Id)
    requires r in w.rooms && RoomOk(w, r)
    ensures RoomKept(w, BlockRoom(w, u, q, friends, now), r)
  {
    if BlockRoomError(w, u, q, friends, now).None? {
      EndingRoomKept(w, u, q, BLOCK, now, r);
    }
  }

  lemma StepRoom(w: World, c: Call, now: Time, r: Id)
    requires Consistent(w) && r in w.rooms
    ensures RoomKept(w, Step(w, c, now), r)
  {
    assert RoomOk(w, r);
    NextRoomIsNew(w);
    match c
    case StatusCall(u) =>
    case JoinCall(u, p, t) => JoinRecord(w, u, p, t, now);
    case HeartbeatCall(u) =>
    case CancelCall(u) =>
    case DisconnectCall(u) =>
    case EndCall(u, q, action) => DestroyingStepRoom(w, c, now, r);
    case ExitCall(u, q, friends) => DestroyingStepRoom(w, c, now, r);
    case BlockRoomCall(u, q, friends) => DestroyingStepRoom(w, c, now, r);
    case TimeoutCall =>
    case OpenRoomCall(a, b, ttl) =>
    case PlaceBlockCall(u, v) =>
  }

  lemma {:induction false} RoomsOneWay(w: World, h: History, r: Id)
    requires Consistent(w) && Timely(h, w.clock) && r in w.rooms
    ensures RoomKept(w, Run(w, h), r)
    decreases |h|
  {
    assert RoomOk(w, r);
    if h != [] {
      StepRoom(w, h[0].1, h[0].0, r);
      StepKeeps(w, h[0].1, h[0].0);
      RoomsOneWay(Step(w, h[0].1, h[0].0), h[1..], r);
    }
  }
}
