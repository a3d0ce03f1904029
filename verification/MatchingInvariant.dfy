/** What every call keeps about rows, queue, rooms and matches. */
module MatchingInvariant {
  import opened Basics
  import opened MatchingModel
  import opened MatchingChoice

  // ----- the invariant -----

  /** A waiting row carries its whole request; a room is recorded exactly while
      the row is ACTIVE, and it is a match room of this user whose match row was
      never ended. (The room itself may be dead: see `StrandedExactly`.) */
  ghost predicate RowOk(w: World, u: Id)
    requires u in w.rows
  {
    var row := w.rows[u];
    && (row.status == ACTIVE <==> row.roomId.Some?)
    && (row.status == WAITING ==>
          row.purpose.Some? && row.topic.Some? && row.queuedAt.Some? && row.heartbeatAt.Some?
          && row.heartbeatAt.value <= w.clock)
    && (row.roomId.Some? ==>
          var r := row.roomId.value;
          IsMatchRoom(w, r) && w.rooms[r].Has(u) && r in w.matches && w.matches[r].endedBy.None?)
  }

  ghost predicate RowsOk(w: World) {
    forall u :: u in w.rows ==> RowOk(w, u)
  }

  /** The Redis queue mirrors the waiting rows. */
  ghost predicate QueueOk(w: World) {
    forall u :: u in w.queue <==> Waiting(w, u)
  }

  /** Both members of a live match room are ACTIVE and sit in it. */
  ghost predicate RoomOk(w: World, r: Id)
    requires r in w.rooms
  {
    var room := w.rooms[r];
    && r < w.nextRoom
    && room.createdAt <= w.clock
    && room.a != room.b
    && (room.kind == FRIEND ==> room.status == RoomActive && room.expiredAt.None?)
    && (room.kind == MATCH ==> room.a < room.b && room.expiredAt == Some(room.createdAt + MATCH_ROOM_SECONDS))
    && (room.kind == MATCH && room.status == RoomActive ==>
          forall u :: room.Has(u) ==> u in w.rows && w.rows[u].status == ACTIVE && w.rows[u].roomId == Some(r))
  }

  ghost predicate RoomsOk(w: World) {
    forall r :: r in w.rooms ==> RoomOk(w, r)
  }

  /** Every match room has one match row with exactly the room's two users; an
      ended match has a dead room and both users gone, an open one neither. */
  ghost predicate MatchOk(w: World, r: Id)
    requires r in w.matches
  {
    var m := w.matches[r];
    && IsMatchRoom(w, r)
    && m.createdAt == w.rooms[r].createdAt
    && (forall u :: u in m.participants <==> w.rooms[r].Has(u))
    && (m.endedBy.Some? <==> m.endedAt.Some?)
    && (m.endedBy.Some? ==> w.rooms[r].status != RoomActive)
    && (w.rooms[r].status == RoomExpired ==> m.endedBy == Some(TimedOut))
    && (forall u :: u in m.participants ==>
          m.participants[u].joinedAt == m.createdAt && m.participants[u].leftAt == m.endedAt)
  }

  ghost predicate MatchesOk(w: World) {
    && (forall r :: r in w.matches ==> MatchOk(w, r))
    && (forall r :: IsMatchRoom(w, r) ==> r in w.matches)
  }

  ghost predicate Consistent(w: World) {
    RowsOk(w) && QueueOk(w) && RoomsOk(w) && MatchesOk(w)
  }

  // ----- what it says to a user -----

  /** No user is in two live match rooms. */
  lemma OneLiveRoomEach(w: World, u: Id, r: Id, q: Id)
    requires Consistent(w)
    requires IsMatchRoom(w, r) && RoomLive(w, r) && w.rooms[r].Has(u)
    requires IsMatchRoom(w, q) && RoomLive(w, q) && w.rooms[q].Has(u)
    ensures r == q
  {
    assert RoomOk(w, r) && RoomOk(w, q);
  }

  /** The row of a user points at a dead room exactly when that room was
      destroyed while its match row stayed open, which is what the generic exit
      does and no other call. */
  lemma StrandedExactly(w: World, u: Id)
    requires Consistent(w) && u in w.rows && w.rows[u].roomId.Some?
    ensures var r := w.rows[u].roomId.value;
      r in w.rooms && r in w.matches
      && (DeadEnd(w, w.rows[u]) <==> w.rooms[r].status == RoomDestroyed && w.matches[r].endedBy.None?)
  {
    assert RowOk(w, u) && MatchOk(w, w.rows[u].roomId.value);
  }

  lemma NextRoomIsNew(w: World)
    requires Consistent(w)
    ensures w.nextRoom !in w.rooms && w.nextRoom !in w.matches
  {
    assert (w.nextRoom in w.rooms ==> RoomOk(w, w.nextRoom)) && (w.nextRoom in w.matches ==> MatchOk(w, w.nextRoom));
  }

  // ----- preservation, call by call -----

  lemma CleanupKeeps(w: World, now: Time)
    requires Consistent(w)
    ensures Consistent(CleanupStale(w, now))
    ensures forall u :: Waiting(CleanupStale(w, now), u) <==> Waiting(w, u) && !StaleWaiter(w.rows[u], now)
    ensures forall u :: Waiting(CleanupStale(w, now), u) ==> CleanupStale(w, now).rows[u] == w.rows[u]
    ensures forall u :: Waiting(CleanupStale(w, now), u) ==> Fresh(w.rows[u], now)
  {
    var w1 := CleanupStale(w, now);
    forall u | u in w1.rows
      ensures RowOk(w1, u)
      ensures Waiting(w1, u) <==> Waiting(w, u) && !StaleWaiter(w.rows[u], now)
      ensures Waiting(w1, u) ==> Fresh(w.rows[u], now)
    {
      assert RowOk(w, u);
    }
    forall r | r in w1.rooms
      ensures RoomOk(w1, r)
    {
      assert RoomOk(w, r);
    }
    forall r | r in w1.matches
      ensures MatchOk(w1, r)
    {
      assert MatchOk(w, r);
    }
  }

  /** A later clock breaks nothing. */
  lemma ClockKeeps(w: World, now: Time)
    requires Consistent(w) && w.clock <= now
    ensures Consistent(w.(clock := now))
  {
    var w1 := w.(clock := now);
    forall u | u in w1.rows
      ensures RowOk(w1, u)
    {
      assert RowOk(w, u);
    }
    forall r | r in w1.rooms
      ensures RoomOk(w1, r)
    {
      assert RoomOk(w, r);
    }
    forall r | r in w1.matches
      ensures MatchOk(w1, r)
    {
      assert MatchOk(w, r);
    }
    assert forall u :: Waiting(w1, u) <==> Waiting(w, u);
  }

  /** Replacing the row of a user who is in no live match room. */
  lemma RowChangeKeeps(w: World, w1: World, u: Id)
    requires Consistent(w)
    requires w1 == w.(rows := w1.rows, queue := w1.queue)
    requires u in w1.rows && w1.rows == w.rows[u := w1.rows[u]]
    requires RowOk(w1, u)
    requires u in w.rows && w.rows[u].status == ACTIVE ==> DeadEnd(w, w.rows[u])
    requires forall v :: v in w1.queue <==> if v == u then w1.rows[u].status == WAITING else v in w.queue
    ensures Consistent(w1)
  {
    forall v | v in w1.rows
      ensures RowOk(w1, v)
      ensures v in w1.queue <==> Waiting(w1, v)
    {
      if v != u {
        assert RowOk(w, v) && (v in w.queue <==> Waiting(w, v));
      }
    }
    forall v | v !in w1.rows
      ensures v !in w1.queue
    {
      assert v in w.queue <==> Waiting(w, v);
    }
    forall r | r in w1.rooms
      ensures RoomOk(w1, r)
    {
      assert RoomOk(w, r);
    }
    forall r | r in w1.matches
      ensures MatchOk(w1, r)
    {
      assert MatchOk(w, r);
    }
  }

  lemma StatusKeeps(w: World, u: Id, now: Time)
    requires Consistent(w) && w.clock <= now
    ensures Consistent(Status(w, u, now))
  {
    CleanupKeeps(w, now);
    var w1 := CleanupStale(w, now);
    var row := RowOf(w1, u);
    var row1 := if DeadEnd(w1, row) then row.(status := IDLE, roomId := None) else row;
    var w2 := w1.(rows := w1.rows[u := row1]);
    if u in w1.rows && !DeadEnd(w1, row) {
      assert w2.rows == w1.rows;
    } else {
      assert u !in w1.queue;
      RowChangeKeeps(w1, w2, u);
    }
    ClockKeeps(w2, now);
  }

  lemma EnqueueKeeps(w: World, u: Id, p: Purpose, t: Topic, now: Time)
    requires Consistent(w) && w.clock == now && !Seats(RowOf(w, u))
    ensures Consistent(Enqueue(w, u, p, t, now)) && Waiting(Enqueue(w, u, p, t, now), u)
  {
    var w1 := Enqueue(w, u, p, t, now);
    assert u in w.rows ==> RowOk(w, u);
    assert w1.rows == w.rows[u := w1.rows[u]] && RowOk(w1, u);
    RowChangeKeeps(w, w1, u);
  }

  /** Seating two waiting users in a fresh room. */
  lemma PairingKeeps(w: World, u: Id, v: Id, now: Time)
    requires Consistent(w) && w.clock == now && u != v && Waiting(w, u) && Waiting(w, v)
    ensures Consistent(Pairing(w, u, v, now))
  {
    var w1 := Pairing(w, u, v, now);
    var r := w.nextRoom;
    assert RowOk(w, u) && RowOk(w, v);
    NextRoomIsNew(w);
    forall x | x in w1.rows
      ensures RowOk(w1, x)
    {
      if x != u && x != v {
        assert RowOk(w, x);
      }
    }
    forall q | q in w1.rooms
      ensures RoomOk(w1, q)
    {
      if q != r {
        assert RoomOk(w, q);
      }
    }
    forall q | q in w1.matches
      ensures MatchOk(w1, q)
    {
      if q != r {
        assert MatchOk(w, q);
      }
    }
    forall x
      ensures x in w1.queue <==> Waiting(w1, x)
    {
      assert x in w.queue <==> Waiting(w, x);
    }
  }

  lemma TryMatchKeeps(w: World, u: Id, now: Time)
    requires Consistent(w) && w.clock == now && Waiting(w, u)
    ensures Consistent(TryMatch(w, u, now))
    ensures TryMatch(w, u, now).clock == now
  {
    ChooseIsBest(w, u, now);
    if Choose(w, u, now).Some? {
      PairingKeeps(w, u, Choose(w, u, now).value, now);
    }
  }

  lemma JoinKeeps(w: World, u: Id, p: Purpose, t: Topic, now: Time)
    requires Consistent(w) && w.clock <= now
    ensures Consistent(Join(w, u, p, t, now))
  {
    CleanupKeeps(w, now);
    var w1 := CleanupStale(w, now);
    ClockKeeps(w1, now);
    if !Seats(RowOf(w1, u)) {
      EnqueueKeeps(w1.(clock := now), u, p, t, now);
      TryMatchKeeps(Enqueue(w1.(clock := now), u, p, t, now), u, now);
    }
  }

  lemma HeartbeatKeeps(w: World, u: Id, now: Time)
    requires Consistent(w) && w.clock <= now
    ensures Consistent(Heartbeat(w, u, now))
  {
    ClockKeeps(w, now);
    if RowOf(w, u).status == WAITING {
      assert RowOk(w, u);
      RowChangeKeeps(w.(clock := now), Heartbeat(w, u, now), u);
    }
  }

  lemma LeaveKeeps(w: World, u: Id, now: Time)
    requires Consistent(w) && w.clock <= now && RowOf(w, u).status != ACTIVE
    ensures Consistent(Leave(w, u).(clock := now))
  {
    assert u in w.rows ==> RowOk(w, u);
    RowChangeKeeps(w, Leave(w, u), u);
    ClockKeeps(Leave(w, u), now);
  }

  lemma EndRoomKeeps(w: World, u: Id, r: Id, action: EndAction, now: Time)
    requires Consistent(w) && w.clock <= now && IsMatchRoom(w, r) && RoomLive(w, r)
    ensures Consistent(EndRoom(w, u, r, action, now).(clock := now))
  {
    var w1 := EndRoom(w, u, r, action, now).(clock := now);
    assert RoomOk(w, r) && r in w.matches && MatchOk(w, r);
    forall x | x in w1.rows
      ensures RowOk(w1, x)
    {
      assert RowOk(w, x);
    }
    forall x
      ensures x in w1.queue <==> Waiting(w1, x)
    {
      assert x in w.queue <==> Waiting(w, x);
    }
    forall q | q in w1.rooms
      ensures RoomOk(w1, q)
    {
      assert RoomOk(w, q);
    }
    forall q | q in w1.matches
      ensures MatchOk(w1, q)
    {
      assert MatchOk(w, q);
    }
  }

  /** Destroying a room from outside the matching service. */
  lemma DestroyRoomKeeps(w: World, r: Id, now: Time)
    requires Consistent(w) && w.clock <= now && r in w.rooms && w.rooms[r].kind != FRIEND && RoomLive(w, r)
    ensures Consistent(DestroyRoom(w, r, now).(clock := now))
  {
    var w1 := DestroyRoom(w, r, now).(clock := now);
    forall x | x in w1.rows
      ensures RowOk(w1, x)
    {
      assert RowOk(w, x);
    }
    forall q | q in w1.rooms
      ensures RoomOk(w1, q)
    {
      assert RoomOk(w, q);
    }
    forall q | q in w1.matches
      ensures MatchOk(w1, q)
    {
      assert MatchOk(w, q);
    }
    assert forall x :: Waiting(w1, x) <==> Waiting(w, x);
  }

  /** Blocks and exclusions touch no row. */
  lemma ExcludeKeeps(w: World, u: Id, v: Id, action: EndAction)
    requires Consistent(w)
    ensures Consistent(Exclude(w, u, v, action))
  {
    var w1 := Exclude(w, u, v, action);
    forall x | x in w1.rows
      ensures RowOk(w1, x)
    {
      assert RowOk(w, x);
    }
    forall q | q in w1.rooms
      ensures RoomOk(w1, q)
    {
      assert RoomOk(w, q);
    }
    forall q | q in w1.matches
      ensures MatchOk(w1, q)
    {
      assert MatchOk(w, q);
    }
    assert forall x :: Waiting(w1, x) <==> Waiting(w, x);
  }

  lemma TimeoutKeeps(w: World, now: Time)
    requires Consistent(w) && w.clock <= now
    ensures Consistent(Timeout(w, now))
  {
    var w1 := Timeout(w, now);
    forall x | x in w1.rows
      ensures RowOk(w1, x)
    {
      assert RowOk(w, x);
    }
    forall x
      ensures x in w1.queue <==> Waiting(w1, x)
    {
      assert x in w.queue <==> Waiting(w, x);
      assert x in w.rows ==> RowOk(w, x);
    }
    forall q | q in w1.rooms
      ensures RoomOk(w1, q)
    {
      assert RoomOk(w, q);
    }
    forall q | q in w1.matches
      ensures MatchOk(w1, q)
    {
      assert MatchOk(w, q);
    }
    assert forall r :: IsMatchRoom(w1, r) <==> IsMatchRoom(w, r);
  }

  lemma OpenRoomKeeps(w: World, a: Id, b: Id, ttl: Option<Time>, now: Time)
    requires Consistent(w) && w.clock <= now && a != b
    ensures Consistent(OpenRoom(w, a, b, ttl, now))
  {
    var w1 := OpenRoom(w, a, b, ttl, now);
    NextRoomIsNew(w);
    forall x | x in w1.rows
      ensures RowOk(w1, x)
    {
      assert RowOk(w, x);
    }
    forall q | q in w1.rooms
      ensures RoomOk(w1, q)
    {
      if q != w.nextRoom {
        assert RoomOk(w, q);
      }
    }
    forall q | q in w1.matches
      ensures MatchOk(w1, q)
    {
      assert MatchOk(w, q);
    }
    assert forall x :: Waiting(w1, x) <==> Waiting(w, x);
    assert forall q :: IsMatchRoom(w1, q) <==> IsMatchRoom(w, q);
  }

  lemma StepKeeps(w: World, c: Call, now: Time)
    requires Consistent(w) && w.clock <= now
    ensures Consistent(Step(w, c, now)) && Step(w, c, now).clock == now
  {
    ClockKeeps(w, now);
    match c
    case StatusCall(u) => StatusKeeps(w, u, now);
    case JoinCall(u, p, t) => JoinKeeps(w, u, p, t, now);
    case HeartbeatCall(u) => HeartbeatKeeps(w, u, now);
    case CancelCall(u) =>
      if CancelError(w, u).None? {
        LeaveKeeps(w, u, now);
      }
    case DisconnectCall(u) =>
      if RowOf(w, u).status == WAITING {
        LeaveKeeps(w, u, now);
      }
    case EndCall(u, r, action) =>
      if EndError(w, u, r).None? {
        EndRoomKeeps(w, u, r, action, now);
      }
    case ExitCall(u, r, friends) =>
      if ExitError(w, u, r, friends, now).None? {
        DestroyRoomKeeps(w, r, now);
      }
    case BlockRoomCall(u, r, friends) =>
      if BlockRoomError(w, u, r, friends, now).None? {
        if w.rooms[r].kind == MATCH {
          EndRoomKeeps(w, u, r, BLOCK, now);
        } else {
          ExcludeKeeps(w, u, w.rooms[r].Peer(u), BLOCK);
          DestroyRoomKeeps(Exclude(w, u, w.rooms[r].Peer(u), BLOCK), r, now);
        }
      }
    case TimeoutCall => TimeoutKeeps(w, now);
    case OpenRoomCall(a, b, ttl) =>
      if a != b {
        OpenRoomKeeps(w, a, b, ttl, now);
      }
    case PlaceBlockCall(u, v) => ExcludeKeeps(w.(clock := now), u, v, BLOCK);
  }

  /** The invariant holds in every run from a consistent world. */
  lemma {:induction false} RunKeeps(w: World, h: History)
    requires Consistent(w) && Timely(h, w.clock)
    ensures Consistent(Run(w, h)) && Run(w, h).clock >= w.clock
    decreases |h|
  {
    if h != [] {
      StepKeeps(w, h[0].1, h[0].0);
      RunKeeps(Step(w, h[0].1, h[0].0), h[1..]);
    }
  }
}
