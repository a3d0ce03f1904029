/** What each matching call means to its caller and to everyone else, stated
    without the steps that bring it about. */
module MatchingOutcomes {
  import opened Basics
  import opened MatchingModel
  import opened MatchingChoice
  import opened MatchingInvariant
  import opened MatchingHistory

  /** Nobody but `u` and `v` is affected in rows and queue. */
  ghost predicate OthersKept(w: World, w1: World, u: Id, v: Id) {
    forall x :: x != u && x != v ==> RowOf(w1, x) == RowOf(w, x) && (x in w1.queue <==> x in w.queue)
  }

  ghost predicate SameRequest(row: StateRow, row1: StateRow) {
    row1.purpose == row.purpose && row1.topic == row.topic && row1.queuedAt == row.queuedAt
  }

  /** A user who is not seated ends up waiting in the queue or seated in a live
      room, with a heartbeat of now; a wait that was going on keeps its request and
      its place in time, a new one takes the arguments. A seated user is left alone. */
  lemma JoinOutcome(w: World, u: Id, p: Purpose, t: Topic, now: Time)
    requires Consistent(w) && w.clock <= now
    ensures var w1 := Join(w, u, p, t, now);
      u in w1.rows
      && var row := w1.rows[u];
         if JoinQueues(w, u, now) then
           && row.heartbeatAt == Some(now)
           && (if Waiting(w, u) && !StaleWaiter(w.rows[u], now) then SameRequest(w.rows[u], row)
               else row.purpose == Some(p) && row.topic == Some(t) && row.queuedAt == Some(now))
           && ((row.status == WAITING && u in w1.queue && w1.queue[u] == now)
               || (row.status == ACTIVE && u !in w1.queue && row.roomId == Some(w.nextRoom)
                   && RoomLive(w1, w.nextRoom) && w1.rooms[w.nextRoom].Has(u)))
         else u in w.rows && row == w.rows[u]
  {
    JoinRecord(w, u, p, t, now);
    CleanupKeeps(w, now);
    var w2 := Queued(w, u, p, t, now);
    if JoinQueues(w, u, now) {
      ClockKeeps(CleanupStale(w, now), now);
      EnqueueKeeps(CleanupStale(w, now).(clock := now), u, p, t, now);
      assert u in w2.queue;
      ChooseIsBest(w2, u, now);
    }
  }

  lemma PairingOutcome(w: World, u: Id, v: Id, now: Time)
    requires u != v && w.nextRoom !in w.rooms
    ensures var w1 := Pairing(w, u, v, now);
      var r := w.nextRoom;
      && RoomLive(w1, r) && w1.rooms[r].Has(u) && w1.rooms[r].Has(v) && w1.rooms[r].Peer(u) == v
      && Seats(RowOf(w1, u)) && Seats(RowOf(w1, v)) && RowOf(w1, u).roomId == Some(r) && RowOf(w1, v).roomId == Some(r)
      && r in w1.matches && w1.matches[r].participants == map[u := Joined(RowOf(w, u), now), v := Joined(RowOf(w, v), now)]
      && OthersKept(w, w1, u, v)
  {
  }

  lemma QueuedOthers(w: World, u: Id, p: Purpose, t: Topic, now: Time)
    ensures OthersKept(CleanupStale(w, now), Queued(w, u, p, t, now), u, u)
  {
  }

  /** The peer of a match was waiting with a fresh heartbeat; both sit in the new
      room, which records each one's own stored request; nobody else is touched
      but the stale waiters of the cleanup. */
  lemma MatchOutcome(w: World, c: Call, now: Time)
    requires Consistent(w) && w.clock <= now && Matched(w, c, now).Some?
    ensures var v := Matched(w, c, now).value;
      var w1 := Step(w, c, now);
      var r := w.nextRoom;
      && v != c.u && Waiting(w, v) && Fresh(w.rows[v], now) && !Excluded(w, c.u, v)
      && r !in w.rooms && RoomLive(w1, r) && w1.rooms[r].Has(c.u) && w1.rooms[r].Has(v) && w1.rooms[r].Peer(c.u) == v
      && Seats(RowOf(w1, c.u)) && Seats(RowOf(w1, v))
      && RowOf(w1, c.u).roomId == Some(r) && RowOf(w1, v).roomId == Some(r)
      && r in w1.matches && w1.matches[r].participants.Keys == {c.u, v}
      && Some(w1.matches[r].participants[v].purpose) == w.rows[v].purpose
      && Some(w1.matches[r].participants[v].topic) == w.rows[v].topic
      && Some(w1.matches[r].participants[c.u].purpose) == RowOf(w1, c.u).purpose
      && Some(w1.matches[r].participants[c.u].topic) == RowOf(w1, c.u).topic
      && (Waiting(w, c.u) && !StaleWaiter(w.rows[c.u], now) ==> SameRequest(w.rows[c.u], RowOf(w1, c.u)))
      && OthersKept(CleanupStale(w, now), w1, c.u, v)
  {
    MatchedFacts(w, c, now);
    CleanupKeeps(w, now);
    JoinRecord(w, c.u, c.purpose, c.topic, now);
    var w2 := Queued(w, c.u, c.purpose, c.topic, now);
    var v := Matched(w, c, now).value;
    QueuedOthers(w, c.u, c.purpose, c.topic, now);
    assert RowOk(w2, c.u);
    PairingOutcome(w2, c.u, v, now);
    assert RowOf(w2, v) == RowOf(CleanupStale(w, now), v);
    assert Waiting(CleanupStale(w, now), v) && RowOk(w, v);
  }

  /** A heartbeat protects its sender from every cleanup in the next minute and
      changes neither the request nor anyone else. */
  lemma HeartbeatOutcome(w: World, u: Id, now: Time, later: Time)
    requires Consistent(w) && w.clock <= now <= later <= now + 60.0 && Waiting(w, u)
    ensures var w1 := Heartbeat(w, u, now);
      && Waiting(CleanupStale(w1, later), u) && u in CleanupStale(w1, later).queue
      && SameRequest(w.rows[u], CleanupStale(w1, later).rows[u])
      && OthersKept(w, w1, u, u)
      && Some(w1.queue[u]) == w.rows[u].queuedAt
  {
    assert RowOk(w, u);
    HeartbeatKeeps(w, u, now);
    CleanupKeeps(Heartbeat(w, u, now), later);
  }

  /** Without a newer heartbeat the wait ends at the first cleanup after a minute. */
  lemma SilenceEndsTheWait(w: World, u: Id, later: Time)
    requires Consistent(w) && Waiting(w, u)
    ensures Waiting(CleanupStale(w, later), u) <==> later <= w.rows[u].heartbeatAt.value + 60.0
    ensures u in CleanupStale(w, later).queue <==> Waiting(CleanupStale(w, later), u)
  {
    assert RowOk(w, u);
    CleanupKeeps(w, later);
  }

  /** After a cancel or a disconnect the caller does not wait and has no request; a
      matched user stays matched, which a cancel reports; nobody else is affected. */
  lemma LeaveOutcome(w: World, u: Id, now: Time)
    requires Consistent(w)
    ensures !Waiting(Cancel(w, u, now), u) && u !in Cancel(w, u, now).queue
    ensures !Waiting(Disconnect(w, u, now), u) && u !in Disconnect(w, u, now).queue
    ensures CancelError(w, u) == if RowOf(w, u).status == ACTIVE then Some(MatchAlreadyActive) else None
    ensures RowOf(w, u).status != ACTIVE ==> RowOf(Cancel(w, u, now), u) == IdleRow
    ensures RowOf(w, u).status == WAITING ==> RowOf(Disconnect(w, u, now), u) == IdleRow
    ensures RowOf(w, u).status == ACTIVE ==>
      RowOf(Cancel(w, u, now), u) == RowOf(w, u) && RowOf(Disconnect(w, u, now), u) == RowOf(w, u)
    ensures OthersKept(w, Cancel(w, u, now), u, u) && OthersKept(w, Disconnect(w, u, now), u, u)
  {
    assert (u in w.queue <==> Waiting(w, u)) && (u in w.rows ==> RowOk(w, u));
  }

  /** Ending a match room frees exactly its two users, closes its match for both
      at one time, and excludes them from each other exactly as asked. */
  lemma EndOutcome(w: World, u: Id, r: Id, action: EndAction, now: Time)
    requires Consistent(w) && w.clock <= now && EndError(w, u, r).None?
    ensures var w1 := End(w, u, r, action, now);
      var v := w.rooms[r].Peer(u);
      && v != u && !RoomLive(w1, r)
      && RowOf(w1, u) == IdleRow && RowOf(w1, v) == IdleRow && u !in w1.queue && v !in w1.queue
      && OthersKept(w, w1, u, v)
      && r in w1.matches && w1.matches[r].endedBy == Some(Ended(action))
      && w1.matches[r].participants.Keys == {u, v}
      && w1.matches[r].participants[u].leftAt == Some(now) && w1.matches[r].participants[v].leftAt == Some(now)
      && (Excluded(w1, u, v) <==> Excluded(w, u, v) || action != END)
      && (BlockedBetween(w1, u, v) <==> BlockedBetween(w, u, v) || action == BLOCK)
  {
    assert RoomOk(w, r) && MatchOk(w, r);
    StepKeeps(w, EndCall(u, r, action), now);
    var w1 := End(w, u, r, action, now);
    forall x | !w.rooms[r].Has(x)
      ensures RowOf(w1, x) == RowOf(w, x) && (x in w1.queue <==> x in w.queue)
    {
      assert x in w.rows ==> RowOk(w, x);
      assert !SitsIn(w, x, r);
    }
    var v := w.rooms[r].Peer(u);
    assert w1.matches[r].participants.Keys == {u, v} by {
      forall x
        ensures x in w1.matches[r].participants <==> x in {u, v}
      {
        assert x in w.matches[r].participants <==> w.rooms[r].Has(x);
      }
    }
    assert (u in w1.queue ==> Waiting(w1, u)) && (v in w1.queue ==> Waiting(w1, v));
  }

  /** After the room worker nothing is overdue; exactly the overdue rooms
      expired, and exactly the users sitting in an overdue match room were freed. */
  lemma TimeoutOutcome(w: World, now: Time)
    requires Consistent(w) && w.clock <= now
    ensures var w1 := Timeout(w, now);
      && w1.rooms.Keys == w.rooms.Keys
      && (forall r :: r in w.rooms ==>
            !Overdue(w1.rooms[r], now)
            && (if Overdue(w.rooms[r], now) then w1.rooms[r].status == RoomExpired else w1.rooms[r] == w.rooms[r]))
      && (forall u :: RowOf(w1, u) != RowOf(w, u) ==>
            RowOf(w1, u) == IdleRow && exists r :: OverdueMatch(w, r, now) && w.rooms[r].Has(u))
      && (forall r, u :: OverdueMatch(w, r, now) && w.rooms[r].Has(u) ==> RowOf(w1, u) == IdleRow)
      && w1.queue == w.queue
  {
    var w1 := Timeout(w, now);
    forall r, u | OverdueMatch(w, r, now) && w.rooms[r].Has(u)
      ensures RowOf(w1, u) == IdleRow
    {
      assert RoomOk(w, r);
    }
    forall u | RowOf(w1, u) != RowOf(w, u)
      ensures RowOf(w1, u) == IdleRow && exists r :: OverdueMatch(w, r, now) && w.rooms[r].Has(u)
    {
      assert Evicted(w, u, now) && RowOk(w, u);
      assert OverdueMatch(w, w.rows[u].roomId.value, now) && w.rooms[w.rows[u].roomId.value].Has(u);
    }
  }

  /** Blocking from an anonymous room blocks its two users and leaves the room dead. */
  lemma BlockRoomOutcome(w: World, u: Id, r: Id, friends: bool, now: Time)
    requires Consistent(w) && w.clock <= now && BlockRoomError(w, u, r, friends, now).None?
    ensures var w1 := BlockRoom(w, u, r, friends, now);
      BlockedBetween(w1, u, w.rooms[r].Peer(u)) && !RoomLive(w1, r) && w.rooms[r].kind != FRIEND
  {
    assert RoomOk(w, r);
  }

  ghost predicate ReplyFits(w: World, u: Id, reply: Payload) {
    && reply.status == RowOf(w, u).status
    && (reply.room.Some? ==>
          RoomLive(w, reply.room.value) && w.rooms[reply.room.value].Has(u) && RowOf(w, u).roomId == reply.room)
    && (reply.room.None? <==> reply.status == WAITING || DeadEnd(w, RowOf(w, u)))
  }

  lemma QueueReplyOutcome(w: World, u: Id, p: Purpose, t: Topic, now: Time)
    requires Consistent(w) && Waiting(w, u)
    ensures ReplyFits(TryMatch(w, u, now), u, QueueReply(w, u, p, t, now))
  {
    ChooseIsBest(w, u, now);
    NextRoomIsNew(w);
    if Choose(w, u, now).Some? {
      PairingOutcome(w, u, Choose(w, u, now).value, now);
    }
  }

  /** A room in the reply to a join is live, and the caller sits in it. */
  lemma ReplyOutcome(w: World, u: Id, p: Purpose, t: Topic, now: Time)
    requires Consistent(w) && w.clock <= now
    ensures ReplyFits(Join(w, u, p, t, now), u, JoinPayload(w, u, p, t, now))
  {
    CleanupKeeps(w, now);
    var w1 := CleanupStale(w, now).(clock := now);
    ClockKeeps(CleanupStale(w, now), now);
    if Seats(RowOf(w1, u)) {
      assert RowOk(w1, u);
    } else {
      EnqueueKeeps(w1, u, p, t, now);
      QueueReplyOutcome(Queued(w, u, p, t, now), u, p, t, now);
    }
  }

  ghost predicate Echoes(reply: Payload, row: StateRow) {
    reply.purpose == row.purpose && reply.topic == row.topic
  }

  lemma QueueEcho(w: World, u: Id, p: Purpose, t: Topic, now: Time)
    requires Waiting(w, u)
    ensures var reply, row := QueueReply(w, u, p, t, now), RowOf(TryMatch(w, u, now), u);
      && reply.queuedAt == row.queuedAt
      && (Echoes(reply, row)
          <==> !(Choose(w, u, now).Some? && (w.rows[u].purpose != Some(p) || w.rows[u].topic != Some(t))))
  {
    ChooseIsBest(w, u, now);
  }

  lemma QueuedRequest(w: World, u: Id, p: Purpose, t: Topic, now: Time)
    requires Consistent(w) && JoinQueues(w, u, now)
    ensures var w2 := Queued(w, u, p, t, now);
      && Waiting(w2, u)
      && (if Waiting(w, u) && !StaleWaiter(w.rows[u], now) then SameRequest(w.rows[u], w2.rows[u])
          else w2.rows[u].purpose == Some(p) && w2.rows[u].topic == Some(t))
  {
    CleanupKeeps(w, now);
  }

  /** The reply to a join tells the caller's stored request, except when a wait that
      was going on under another request ends in a match: then it echoes the
      arguments. The queue time is always the stored one. */
  lemma EchoExactly(w: World, u: Id, p: Purpose, t: Topic, now: Time)
    requires Consistent(w)
    ensures var reply, row := JoinPayload(w, u, p, t, now), RowOf(Join(w, u, p, t, now), u);
      && reply.queuedAt == row.queuedAt
      && (Echoes(reply, row)
          <==> !(Matched(w, JoinCall(u, p, t), now).Some? && Waiting(w, u) && !StaleWaiter(w.rows[u], now)
                 && (w.rows[u].purpose != Some(p) || w.rows[u].topic != Some(t))))
  {
    if JoinQueues(w, u, now) {
      QueuedRequest(w, u, p, t, now);
      QueueEcho(Queued(w, u, p, t, now), u, p, t, now);
    }
  }

  // ----- who gets stranded -----

  /** The call that strands its room's users: a generic exit from a match room that
      goes through. */
  ghost predicate MatchExit(w: World, c: Call, now: Time) {
    c.ExitCall? && IsMatchRoom(w, c.room) && ExitError(w, c.u, c.room, c.friends, now).None?
  }

  /** A row that sits in a live room loses the room only by an exit. */
  lemma SeatedStrands(w: World, c: Call, now: Time, x: Id)
    requires Consistent(w) && w.clock <= now && !Stranded(w, x) && Stranded(Step(w, c, now), x)
    ensures x in w.rows && w.rows[x].roomId.Some? && Step(w, c, now).rows[x].roomId == w.rows[x].roomId
    ensures RoomLive(w, w.rows[x].roomId.value) && !RoomLive(Step(w, c, now), w.rows[x].roomId.value)
  {
    if c.JoinCall? {
      JoinStrandsNobody(w, c.u, c.purpose, c.topic, now, x);
    } else {
      assert x in w.rows ==> RowOk(w, x);
    }
  }

  lemma JoinStrandsNobody(w: World, u: Id, p: Purpose, t: Topic, now: Time, x: Id)
    requires Consistent(w) && w.clock <= now && !Stranded(w, x)
    ensures !Stranded(Join(w, u, p, t, now), x)
  {
    JoinRecord(w, u, p, t, now);
    CleanupKeeps(w, now);
    NextRoomIsNew(w);
    if Matched(w, JoinCall(u, p, t), now).Some? {
      PairingStrandsNobody(Queued(w, u, p, t, now), u, Matched(w, JoinCall(u, p, t), now).value, now, x);
    }
  }

  lemma PairingStrandsNobody(w: World, u: Id, v: Id, now: Time, x: Id)
    requires !Stranded(w, x)
    ensures !Stranded(Pairing(w, u, v, now), x)
  {
  }

  /** A call strands a user exactly if it is a generic exit, gone through, from a
      match room of that user. */
  lemma StrandsExactly(w: World, c: Call, now: Time, x: Id)
    requires Consistent(w) && w.clock <= now && !Stranded(w, x)
    ensures Stranded(Step(w, c, now), x) <==> MatchExit(w, c, now) && w.rooms[c.room].Has(x)
  {
    if MatchExit(w, c, now) && w.rooms[c.room].Has(x) {
      ExitStrandsBoth(w, c.u, c.room, c.friends, now, x);
    }
    if Stranded(Step(w, c, now), x) {
      SeatedStrands(w, c, now, x);
      assert RowOk(w, x);
      OnlyExitKills(w, c, now, x, w.rows[x].roomId.value);
    }
  }

  /** A room that dies under a user who keeps sitting in it was exited. */
  lemma OnlyExitKills(w: World, c: Call, now: Time, x: Id, r: Id)
    requires Consistent(w) && RoomLive(w, r) && IsMatchRoom(w, r) && SitsIn(w, x, r)
    requires !RoomLive(Step(w, c, now), r) && SitsIn(Step(w, c, now), x, r)
    ensures MatchExit(w, c, now) && c.room == r
  {
    match c
    case JoinCall(u, p, t) =>
      JoinRecord(w, u, p, t, now);
      NextRoomIsNew(w);
    case OpenRoomCall(a, b, ttl) => NextRoomIsNew(w);
    case _ =>
  }

  /** Nobody is stranded in a run in which no match room is exited generically. */
  ghost predicate ExitFree(w: World, h: History)
    decreases |h|
  {
    h == [] || (!MatchExit(w, h[0].1, h[0].0) && ExitFree(Step(w, h[0].1, h[0].0), h[1..]))
  }

  lemma {:induction false} NobodyStranded(w: World, h: History)
    requires Consistent(w) && Timely(h, w.clock) && ExitFree(w, h) && forall x :: !Stranded(w, x)
    ensures forall x :: !Stranded(Run(w, h), x)
    decreases |h|
  {
    if h != [] {
      var w1 := Step(w, h[0].1, h[0].0);
      forall x
        ensures !Stranded(w1, x)
      {
        StrandsExactly(w, h[0].1, h[0].0, x);
      }
      StepKeeps(w, h[0].1, h[0].0);
      NobodyStranded(w1, h[1..]);
    }
  }

  // ----- what the room check means -----

  /** A user is admitted to a room exactly as a member of it, while it is live, not
      blocked by or from the peer, and a friend in a friends' room or in time in any
      other. In a match room an admitted user and the peer both sit there, and an
      admitted room outlives the room worker at that moment. */
  lemma ActiveRoomOutcome(w: World, u: Id, r: Id, friends: bool, now: Time)
    requires Consistent(w) && w.clock <= now
    ensures ActiveRoomError(w, u, r, friends, now).None?
      <==> RoomLive(w, r) && w.rooms[r].Has(u) && !BlockedBetween(w, u, w.rooms[r].Peer(u))
           && (if w.rooms[r].kind == FRIEND then friends else RoomLive(Timeout(w, now), r) && w.rooms[r].expiredAt.Some?)
    ensures ActiveRoomError(w, u, r, friends, now).None? && IsMatchRoom(w, r) ==>
      SitsIn(w, u, r) && SitsIn(w, w.rooms[r].Peer(u), r) && w.rooms[r].Peer(u) != u
    ensures ActiveRoomError(w, u, r, friends, now) == Some(RoomNotFound) <==> r !in w.rooms
    ensures ActiveRoomError(w, u, r, friends, now) == Some(Forbidden) <==> r in w.rooms && !w.rooms[r].Has(u)
    ensures ActiveRoomError(w, u, r, friends, now) == Some(UserBlocked)
      <==> RoomLive(w, r) && w.rooms[r].Has(u) && BlockedBetween(w, u, w.rooms[r].Peer(u))
    ensures ActiveRoomError(w, u, r, friends, now) == Some(NotFriends)
      <==> RoomLive(w, r) && w.rooms[r].Has(u) && !BlockedBetween(w, u, w.rooms[r].Peer(u)) && w.rooms[r].kind == FRIEND && !friends
    ensures r in w.rooms && w.rooms[r].Has(u) ==>
      ActiveRoomError(w, u, r, friends, now) == ActiveRoomError(w, w.rooms[r].Peer(u), r, friends, now)
  {
    assert r in w.rooms ==> RoomOk(w, r);
  }

  // ----- records, in full -----

  /** The room and match of a pairing: two hours, lower id first, nobody gone. */
  lemma PairingRecords(w: World, u: Id, v: Id, now: Time)
    requires u != v
    ensures var w1 := Pairing(w, u, v, now);
      var low, high := if u < v then u else v, if u < v then v else u;
      && w1.rooms == w.rooms[w.nextRoom := Room(MATCH, low, high, RoomActive, now, Some(now + 7200.0), None)]
      && w1.matches.Keys == w.matches.Keys + {w.nextRoom}
      && w1.matches[w.nextRoom].createdAt == now && w1.matches[w.nextRoom].endedBy.None? && w1.matches[w.nextRoom].endedAt.None?
      && (forall x :: x in {u, v} ==>
            w1.matches[w.nextRoom].participants[x].joinedAt == now && w1.matches[w.nextRoom].participants[x].leftAt.None?)
      && (forall r :: r in w.matches && r != w.nextRoom ==> w1.matches[r] == w.matches[r])
      && w1.nextRoom == w.nextRoom + 1
  {
  }

  /** A status query answers with the row as the cleanup left it, and with a room
      exactly if the user sits in a live one. Then only a dead room is forgotten. */
  lemma StatusOutcome(w: World, u: Id, now: Time)
    requires Consistent(w) && w.clock <= now
    ensures var w1, row := Status(w, u, now), RowOf(CleanupStale(w, now), u);
      var reply := StatusPayload(w1, row);
      && reply.status == row.status && reply.purpose == row.purpose && reply.topic == row.topic && reply.queuedAt == row.queuedAt
      && (reply.room.Some? <==> row.roomId.Some? && RoomLive(w, row.roomId.value)) && (reply.room.Some? ==> reply.room == row.roomId)
      && RowOf(w1, u) == (if Stranded(w, u) then row.(status := IDLE, roomId := None) else row)
      && (Waiting(w, u) && StaleWaiter(w.rows[u], now) ==> row == IdleRow)
      && (!(Waiting(w, u) && StaleWaiter(w.rows[u], now)) ==> row == RowOf(w, u))
      && OthersKept(CleanupStale(w, now), w1, u, u) && w1.rooms == w.rooms && w1.matches == w.matches
  {
    assert u in w.rows ==> RowOk(w, u);
  }

  /** Ending writes the end into this room and match and into no other. */
  lemma EndRecords(w: World, u: Id, r: Id, action: EndAction, now: Time)
    requires Consistent(w) && w.clock <= now && EndError(w, u, r).None?
    ensures var w1 := End(w, u, r, action, now);
      && w1.rooms == w.rooms[r := w.rooms[r].(status := RoomDestroyed, destroyedAt := Some(now))]
      && r in w.matches && w1.matches.Keys == w.matches.Keys
      && w1.matches[r].endedBy == Some(Ended(action)) && w1.matches[r].endedAt == Some(now)
      && w1.matches[r].createdAt == w.matches[r].createdAt && SameParticipants(w.matches[r], w1.matches[r])
      && (forall q :: q in w.matches && q != r ==> w1.matches[q] == w.matches[q])
      && w1.recent == w.recent
      && w1.blocks == w.blocks + (if action == BLOCK then {(u, w.rooms[r].Peer(u))} else {})
      && w1.noRematch == w.noRematch + (if action == NO_REMATCH then {(u, w.rooms[r].Peer(u))} else {})
  {
    assert IsMatchRoom(w, r);
  }

  /** Who may end a room, and which of the failures is told. */
  lemma EndErrorExactly(w: World, u: Id, r: Id)
    ensures var member, live := r in w.rooms && (w.rooms[r].a == u || w.rooms[r].b == u), RoomLive(w, r);
      && (EndError(w, u, r) == Some(RoomNotFound) <==> !member)
      && (EndError(w, u, r) == Some(RoomEnded) <==> member && !live)
      && (EndError(w, u, r) == Some(NotMatchRoom) <==> member && live && w.rooms[r].kind != MATCH)
      && (EndError(w, u, r).None? <==> member && live && w.rooms[r].kind == MATCH)
  {
  }

  /** A generic exit goes through exactly from an admitted anonymous room, and then
      kills the room and changes nothing else at all. */
  lemma ExitOutcome(w: World, u: Id, r: Id, friends: bool, now: Time)
    requires Consistent(w) && w.clock <= now
    ensures var admitted := ActiveRoomError(w, u, r, friends, now);
      && (admitted.Some? ==> ExitError(w, u, r, friends, now) == admitted)
      && (admitted.None? ==>
            ExitError(w, u, r, friends, now) == if w.rooms[r].kind == FRIEND then Some(FriendRoomPersistent) else None)
      && Exit(w, u, r, friends, now)
         == if ExitError(w, u, r, friends, now).Some? then w.(clock := now)
            else w.(rooms := w.rooms[r := w.rooms[r].(status := RoomDestroyed, destroyedAt := Some(now))], clock := now)
  {
    ActiveRoomOutcome(w, u, r, friends, now);
  }

  /** A block goes through from the same rooms; in a match room it is an end with
      BLOCK, in a letter room it adds the block and kills the room. */
  lemma BlockRoomRecords(w: World, u: Id, r: Id, friends: bool, now: Time)
    requires Consistent(w) && w.clock <= now
    ensures var admitted := ActiveRoomError(w, u, r, friends, now);
      && (admitted.Some? ==> BlockRoomError(w, u, r, friends, now) == admitted)
      && (admitted.None? ==>
            BlockRoomError(w, u, r, friends, now) == if w.rooms[r].kind == FRIEND then Some(NotAnonymousRoom) else None)
      && BlockRoom(w, u, r, friends, now)
         == if BlockRoomError(w, u, r, friends, now).Some? then w.(clock := now)
            else if w.rooms[r].kind == MATCH then End(w, u, r, BLOCK, now)
            else w.(rooms := w.rooms[r := w.rooms[r].(status := RoomDestroyed, destroyedAt := Some(now))],
                    blocks := w.blocks + {(u, if u == w.rooms[r].a then w.rooms[r].b else w.rooms[r].a)}, clock := now)
  {
    ActiveRoomOutcome(w, u, r, friends, now);
  }

  /** The worker dates the ends of what it expires, and of nothing else. */
  lemma TimeoutRecords(w: World, now: Time, r: Id)
    requires Consistent(w) && w.clock <= now && r in w.rooms
    ensures var w1 := Timeout(w, now);
      var overdue := RoomLive(w, r) && w.rooms[r].expiredAt.Some? && w.rooms[r].expiredAt.value <= now;
      && r in w1.rooms
      && w1.rooms[r] == (if overdue then w.rooms[r].(status := RoomExpired, destroyedAt := Some(now)) else w.rooms[r])
      && (r in w.matches ==> r in w1.matches && SameParticipants(w.matches[r], w1.matches[r]))
      && (r in w.matches && overdue ==>
            w1.matches[r].endedBy == Some(TimedOut) && w1.matches[r].endedAt == Some(now)
            && forall u :: u in w1.matches[r].participants ==> w1.matches[r].participants[u].leftAt == Some(now))
      && (r in w.matches && !overdue ==> w1.matches[r] == w.matches[r])
  {
    assert r in w.matches ==> MatchOk(w, r);
  }

  /** A letter room opened between two unblocked users admits both for exactly its
      lifetime, a friends' room for as long as they are friends. */
  lemma OpenRoomLives(w: World, a: Id, b: Id, ttl: Option<Time>, now: Time, later: Time, friends: bool)
    requires a != b && !BlockedBetween(w, a, b)
    ensures var w1, r := OpenRoom(w, a, b, ttl, now), w.nextRoom;
      && (ActiveRoomError(w1, a, r, friends, later).None? <==> if ttl.Some? then later < now + ttl.value else friends)
      && ActiveRoomError(w1, b, r, friends, later) == ActiveRoomError(w1, a, r, friends, later)
      && (ExitError(w1, a, r, friends, later).None? <==> ttl.Some? && later < now + ttl.value)
      && r in w1.rooms && w1.rooms[r].createdAt == now && !IsMatchRoom(w1, r) && w1.nextRoom == r + 1
      && (forall q :: q in w.rooms && q != r ==> q in w1.rooms && w1.rooms[q] == w.rooms[q])
  {
  }

  /** A block placed outside any room counts for both, bars them from each other's
      rooms and from being matched, and changes nothing else. */
  lemma PlaceBlockOutcome(w: World, u: Id, v: Id, now: Time, r: Id, friends: bool)
    requires u != v
    ensures var w1 := PlaceBlock(w, u, v, now);
      && BlockedBetween(w1, u, v) && BlockedBetween(w1, v, u) && Excluded(w1, u, v) && Excluded(w1, v, u)
      && w1 == w.(blocks := w.blocks + {(u, v)}, clock := now)
      && (RoomLive(w, r) && {w.rooms[r].a, w.rooms[r].b} == {u, v} ==>
            ActiveRoomError(w1, u, r, friends, now) == Some(UserBlocked) == ActiveRoomError(w1, v, r, friends, now))
  {
  }
}
