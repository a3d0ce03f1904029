/** The matching service, the room endpoints that touch it and the room half of
    the cleanup worker, updating their tables in place. Each method is proved to
    take the step the model gives for its call, and to keep the whole invariant
    of `MatchingHistory`. */
module MatchingService {
  import opened Basics
  import opened MatchingModel
  import opened MatchingInvariant
  import opened MatchingHistory

  // ----- the cleanup loop part-way: the rooms in `todo` are still to be expired -----

  ghost function TimeoutBut(w: World, todo: set<Id>, now: Time): World {
    w.(rooms := map r | r in w.rooms ::
         if Overdue(w.rooms[r], now) && r !in todo then Close(w.rooms[r], RoomExpired, now) else w.rooms[r],
       matches := map r | r in w.matches ::
         if OverdueMatch(w, r, now) && r !in todo then TimeoutMatch(w.matches[r], now) else w.matches[r],
       rows := map u | u in w.rows ::
         if Evicted(w, u, now) && w.rows[u].roomId.value !in todo then IdleRow else w.rows[u])
  }

  ghost predicate AllOverdue(w: World, todo: set<Id>, now: Time) {
    forall r :: r in todo ==> r in w.rooms && Overdue(w.rooms[r], now)
  }

  lemma TimeoutStart(w: World, overdue: set<Id>, now: Time)
    requires overdue == set r | r in w.rooms && Overdue(w.rooms[r], now)
    ensures TimeoutBut(w, overdue, now) == w
  {
    var w1 := TimeoutBut(w, overdue, now);
    assert w1.rooms == w.rooms && w1.matches == w.matches && w1.rows == w.rows;
  }

  lemma TimeoutEnd(w: World, now: Time)
    ensures TimeoutBut(w, {}, now).(clock := now) == Timeout(w, now)
  {
    var w1 := TimeoutBut(w, {}, now);
    assert w1.rooms == Timeout(w, now).rooms;
    assert w1.matches == Timeout(w, now).matches;
    assert w1.rows == Timeout(w, now).rows;
  }

  /** What the loop body does for one overdue room. */
  ghost function ExpireOne(w: World, r: Id, now: Time): World
    requires r in w.rooms
  {
    var room := w.rooms[r];
    var w1 := w.(rooms := w.rooms[r := room.(status := RoomExpired, destroyedAt := Some(now))]);
    if room.kind != MATCH then w1
    else w1.(
      matches := if r in w.matches then w.matches[r := TimeoutMatch(w.matches[r], now)] else w.matches,
      rows := map u | u in w.rows :: if w.rows[u].roomId == Some(r) then IdleRow else w.rows[u])
  }

  lemma TimeoutRooms(w: World, todo: set<Id>, r: Id, now: Time)
    requires AllOverdue(w, todo, now) && r in todo
    ensures r in TimeoutBut(w, todo, now).rooms && TimeoutBut(w, todo, now).rooms[r] == w.rooms[r]
    ensures TimeoutBut(w, todo - {r}, now).rooms == ExpireOne(TimeoutBut(w, todo, now), r, now).rooms
  {
  }

  lemma TimeoutMatches(w: World, todo: set<Id>, r: Id, now: Time)
    requires AllOverdue(w, todo, now) && r in todo && r in TimeoutBut(w, todo, now).rooms
    ensures TimeoutBut(w, todo - {r}, now).matches == ExpireOne(TimeoutBut(w, todo, now), r, now).matches
  {
  }

  lemma TimeoutRows(w: World, todo: set<Id>, r: Id, now: Time)
    requires AllOverdue(w, todo, now) && r in todo && r in TimeoutBut(w, todo, now).rooms
    ensures TimeoutBut(w, todo - {r}, now).rows == ExpireOne(TimeoutBut(w, todo, now), r, now).rows
  {
  }

  lemma TimeoutStep(w: World, todo: set<Id>, r: Id, now: Time)
    requires AllOverdue(w, todo, now) && r in todo
    ensures r in TimeoutBut(w, todo, now).rooms
    ensures TimeoutBut(w, todo - {r}, now) == ExpireOne(TimeoutBut(w, todo, now), r, now)
  {
    TimeoutRooms(w, todo, r, now);
    TimeoutMatches(w, todo, r, now);
    TimeoutRows(w, todo, r, now);
  }

  /** The cleanup of stale waiters part-way. */
  ghost function CleanupBut(w: World, stale: set<Id>, todo: set<Id>): World {
    w.(rows := map u | u in w.rows :: if u in stale && u !in todo then ResetRequest(w.rows[u]) else w.rows[u],
       queue := map u | u in w.queue && !(u in stale && u !in todo) :: w.queue[u])
  }

  lemma CleanupNext(w: World, stale: set<Id>, todo: set<Id>, u: Id)
    requires todo <= stale && u in todo && u in w.rows
    ensures var w1, w2 := CleanupBut(w, stale, todo), CleanupBut(w, stale, todo - {u});
      u in w1.rows && w2 == w1.(rows := w1.rows[u := ResetRequest(w1.rows[u])], queue := w1.queue - {u})
  {
    var w1, w2 := CleanupBut(w, stale, todo), CleanupBut(w, stale, todo - {u});
    assert w2.rows == w1.rows[u := ResetRequest(w1.rows[u])];
    assert w2.queue == w1.queue - {u};
  }

  lemma CleanupEnd(w: World, stale: set<Id>, now: Time)
    requires stale == set u | u in w.rows && StaleWaiter(w.rows[u], now)
    ensures CleanupBut(w, stale, {}) == CleanupStale(w, now)
  {
    var w1, w2 := CleanupBut(w, stale, {}), CleanupStale(w, now);
    forall u
      ensures u in stale <==> u in w.rows && StaleWaiter(w.rows[u], now)
    {
    }
    assert w1.rows == w2.rows && w1.queue == w2.queue;
  }

  /** The candidate loop adds one entry, or none for an excluded candidate. */
  lemma RankedNext(w: World, u: Id, ids: seq<Id>, i: nat, now: Time)
    requires i < |ids|
    ensures Ranked(w, u, ids[..i + 1], now)
         == Ranked(w, u, ids[..i], now) + if Excluded(w, u, ids[i]) then [] else [(Score(w, u, ids[i], now), ids[i])]
  {
    assert ids[..i + 1][..i] == ids[..i];
  }

  class Service {
    var rows: map<Id, StateRow>
    var queue: map<Id, Time>
    var rooms: map<Id, Room>
    var matches: map<Id, Match>
    var recent: map<Pair, Recent>
    var noRematch: set<(Id, Id)>
    var blocks: set<(Id, Id)>
    var nextRoom: Id
    var clock: Time

    ghost function Snapshot(): World
      reads this
    {
      World(rows, queue, rooms, matches, recent, noRematch, blocks, nextRoom, clock)
    }

    ghost predicate Valid()
      reads this
    {
      Sound(Snapshot())
    }

    constructor ()
      ensures Valid() && Snapshot() == EmptyWorld
    {
      rows, queue, rooms, matches, recent := map[], map[], map[], map[], map[];
      noRematch, blocks, nextRoom, clock := {}, {}, 1, 0.0;
      new;
      ReachableSound([]);
    }

    method CleanupStaleWaiters(now: Time) returns (count: nat)
      modifies this`rows, this`queue
      ensures Snapshot() == CleanupStale(old(Snapshot()), now)
      ensures count == |set u | u in old(rows) && StaleWaiter(old(rows)[u], now)|
    {
      ghost var before := Snapshot();
      var stale := set u | u in rows && StaleWaiter(rows[u], now);
      var todo := stale;
      while todo != {}
        invariant todo <= stale && Snapshot() == CleanupBut(before, stale, todo)
        decreases todo
      {
        Inhabited(todo);
        var u :| u in todo;
        CleanupNext(before, stale, todo, u);
        DropWaiter(u);
        todo := todo - {u};
      }
      count := |stale|;
      CleanupEnd(before, stale, now);
    }

    method DropWaiter(u: Id)
      requires u in rows
      modifies this`rows, this`queue
      ensures rows == old(rows)[u := ResetRequest(old(rows)[u])] && queue == old(queue) - {u}
    {
      rows := rows[u := ResetRequest(rows[u])];
      queue := queue - {u};
    }

    method QueryStatus(u: Id, now: Time) returns (payload: Payload)
      modifies this
      ensures Snapshot() == Status(old(Snapshot()), u, now)
      ensures payload == StatusPayload(Snapshot(), RowOf(CleanupStale(old(Snapshot()), now), u))
    {
      var _ := CleanupStaleWaiters(now);
      var row := if u in rows then rows[u] else IdleRow;
      payload := Payload(row.status, row.purpose, row.topic, row.queuedAt, None);
      if row.status == ACTIVE && row.roomId.Some? {
        if row.roomId.value in rooms && rooms[row.roomId.value].status == RoomActive {
          payload := payload.(room := row.roomId);
        } else {
          row := row.(status := IDLE, roomId := None);
        }
      }
      rows := rows[u := row];
      clock := now;
    }

    method MatchingStatus(u: Id, now: Time) returns (payload: Payload)
      requires Valid() && clock <= now
      modifies this
      ensures Valid() && Snapshot() == Step(old(Snapshot()), StatusCall(u), now)
      ensures payload == StatusPayload(Snapshot(), RowOf(CleanupStale(old(Snapshot()), now), u))
    {
      StepSound(Snapshot(), StatusCall(u), now);
      payload := QueryStatus(u, now);
    }

    /** The candidate loop, the stable sort and the sign test. */
    method PickPeer(u: Id, now: Time) returns (best: Option<Id>)
      ensures best == Choose(Snapshot(), u, now)
    {
      var mine := if u in rows then rows[u] else IdleRow;
      var candidates := Ascending(
        set v | v in rows && v != u && rows[v].status == WAITING && Fresh(rows[v], now));
      var ranked: seq<(real, Id)> := [];
      for i := 0 to |candidates|
        invariant ranked == Ranked(Snapshot(), u, candidates[..i], now)
      {
        var v := candidates[i];
        assert v in candidates;
        RankedNext(Snapshot(), u, candidates, i, now);
        var blocked := u != v && ((u, v) in blocks || (v, u) in blocks);
        if !(blocked || (u, v) in noRematch || (v, u) in noRematch) {
          var pair := PairOf(u, v);
          var met := if pair in recent then Some(recent[pair]) else None;
          var score := Compatibility(mine.purpose.GetOr(CASUAL), mine.topic.GetOr(LIFE), rows[v], met, now);
          ranked := ranked + [(score, v)];
        }
      }
      assert candidates[..|candidates|] == candidates;
      var sorted := StableDescending(ranked);
      if sorted == [] || sorted[0].0 < 0.0 {
        best := None;
      } else {
        best := Some(sorted[0].1);
      }
    }

    /** The rows written for a match of two waiting users. */
    method SeatPair(u: Id, peer: Id, now: Time) returns (r: Id)
      requires u in rows && peer in rows && u != peer
      modifies this
      ensures Snapshot() == Pairing(old(Snapshot()), u, peer, now)
      ensures r == old(nextRoom)
    {
      r := nextRoom;
      nextRoom := r + 1;
      rooms := rooms[r := Room(MATCH, if u <= peer then u else peer, if u <= peer then peer else u,
                               RoomActive, now, Some(now + MATCH_ROOM_SECONDS), None)];
      matches := matches[r := Match(now, None, None,
                                    map[u := Joined(rows[u], now), peer := Joined(rows[peer], now)])];
      rows := rows[u := Seated(rows[u], r, now)][peer := Seated(rows[peer], r, now)];
      var pair := PairOf(u, peer);
      if pair in recent {
        recent := recent[pair := Recent(now, recent[pair].matchCount + 1)];
      } else {
        recent := recent[pair := Recent(now, 1)];
      }
      queue := queue - {u, peer};
    }

    method TryMatchUser(u: Id, now: Time) returns (room: Option<Id>)
      requires u in rows
      modifies this
      ensures Snapshot() == TryMatch(old(Snapshot()), u, now)
      ensures room == if Choose(old(Snapshot()), u, now).None? then None else Some(old(nextRoom))
    {
      var best := PickPeer(u, now);
      room := None;
      if best.Some? {
        MatchingChoice.ChooseIsBest(Snapshot(), u, now);
        var r := SeatPair(u, best.value, now);
        room := Some(r);
      }
    }

    method QueueUp(u: Id, purpose: Purpose, topic: Topic, now: Time) returns (row: StateRow)
      modifies this`rows, this`queue
      ensures Snapshot() == Enqueue(old(Snapshot()), u, purpose, topic, now)
      ensures u in rows && row == rows[u]
    {
      row := if u in rows then rows[u] else IdleRow;
      if row.status != WAITING {
        row := row.(status := WAITING, purpose := Some(purpose), topic := Some(topic), queuedAt := Some(now));
      }
      row := row.(heartbeatAt := Some(now));
      rows := rows[u := row];
      queue := queue[u := now];
    }

    method SeekPeer(u: Id, purpose: Purpose, topic: Topic, now: Time) returns (payload: Payload)
      requires u in rows && rows[u].status == WAITING
      modifies this
      ensures Snapshot() == TryMatch(old(Snapshot()), u, now)
      ensures payload == QueueReply(old(Snapshot()), u, purpose, topic, now)
    {
      var row := rows[u];
      var room := TryMatchUser(u, now);
      payload := if room.Some? then Payload(ACTIVE, Some(purpose), Some(topic), row.queuedAt, room)
                 else Payload(row.status, row.purpose, row.topic, row.queuedAt, None);
    }

    /** The locked join after the cleanup. */
    method JoinCleaned(u: Id, purpose: Purpose, topic: Topic, now: Time) returns (payload: Payload)
      modifies this
      ensures Snapshot() == JoinAfterCleanup(old(Snapshot()), u, purpose, topic, now)
      ensures payload == JoinReply(old(Snapshot()), u, purpose, topic, now)
    {
      var row := if u in rows then rows[u] else IdleRow;
      if row.status == ACTIVE && row.roomId.Some? {
        payload := Payload(row.status, row.purpose, row.topic, row.queuedAt,
                           if row.roomId.value in rooms && rooms[row.roomId.value].status == RoomActive
                           then row.roomId else None);
      } else {
        row := QueueUp(u, purpose, topic, now);
        payload := SeekPeer(u, purpose, topic, now);
      }
    }

    method JoinLocked(u: Id, purpose: Purpose, topic: Topic, now: Time) returns (payload: Payload)
      modifies this
      ensures Snapshot() == Join(old(Snapshot()), u, purpose, topic, now)
      ensures payload == JoinPayload(old(Snapshot()), u, purpose, topic, now)
    {
      var _ := CleanupStaleWaiters(now);
      clock := now;
      payload := JoinCleaned(u, purpose, topic, now);
    }

    method JoinMatching(u: Id, purpose: Purpose, topic: Topic, now: Time) returns (payload: Payload)
      requires Valid() && clock <= now
      modifies this
      ensures Valid() && Snapshot() == Step(old(Snapshot()), JoinCall(u, purpose, topic), now)
      ensures payload == JoinPayload(old(Snapshot()), u, purpose, topic, now)
    {
      StepSound(Snapshot(), JoinCall(u, purpose, topic), now);
      payload := JoinLocked(u, purpose, topic, now);
    }

    method Heartbeat(u: Id, now: Time) returns (payload: Payload)
      requires Valid() && clock <= now
      modifies this
      ensures Valid() && Snapshot() == Step(old(Snapshot()), HeartbeatCall(u), now)
      ensures payload == StatusPayload(Snapshot(), RowOf(Snapshot(), u))
    {
      StepSound(Snapshot(), HeartbeatCall(u), now);
      var row := if u in rows then rows[u] else IdleRow;
      if row.status == WAITING {
        row := row.(heartbeatAt := Some(now));
        rows := rows[u := row];
        queue := queue[u := if row.queuedAt.Some? then row.queuedAt.value else now];
      }
      clock := now;
      payload := Payload(row.status, row.purpose, row.topic, row.queuedAt,
                         if row.status == ACTIVE && row.roomId.Some?
                            && row.roomId.value in rooms && rooms[row.roomId.value].status == RoomActive
                         then row.roomId else None);
    }

    method CancelMatching(u: Id, now: Time) returns (error: Option<Error>)
      requires Valid() && clock <= now
      modifies this
      ensures Valid() && Snapshot() == Step(old(Snapshot()), CancelCall(u), now)
      ensures error == CancelError(old(Snapshot()), u)
    {
      StepSound(Snapshot(), CancelCall(u), now);
      clock := now;
      var row := if u in rows then rows[u] else IdleRow;
      if row.status == ACTIVE {
        return Some(MatchAlreadyActive);
      }
      rows := rows[u := ResetRequest(row)];
      queue := queue - {u};
      error := None;
    }

    method DisconnectWaiter(u: Id, now: Time)
      requires Valid() && clock <= now
      modifies this
      ensures Valid() && Snapshot() == Step(old(Snapshot()), DisconnectCall(u), now)
    {
      StepSound(Snapshot(), DisconnectCall(u), now);
      clock := now;
      var row := if u in rows then rows[u] else IdleRow;
      if row.status != WAITING {
        return;
      }
      rows := rows[u := ResetRequest(row)];
      queue := queue - {u};
    }

    /** `destroy_room` for a room of the caller. */
    method DestroyChatRoom(r: Id, now: Time)
      requires r in rooms
      modifies this`rooms
      ensures Snapshot() == DestroyRoom(old(Snapshot()), r, now)
    {
      if rooms[r].status == RoomActive {
        rooms := rooms[r := rooms[r].(status := RoomDestroyed, destroyedAt := Some(now))];
      } else {
        assert rooms[r := rooms[r]] == rooms;
      }
    }

    /** Marks the match of a room ended and both participants gone. */
    method CloseMatch(r: Id, action: EndAction, now: Time)
      modifies this`matches
      ensures matches == if r in old(matches) then old(matches)[r := EndMatch(old(matches)[r], Ended(action), now)]
                         else old(matches)
    {
      if r in matches {
        var m := matches[r];
        var todo := m.participants.Keys;
        var participants := m.participants;
        while todo != {}
          invariant todo <= m.participants.Keys && matches == old(matches)
          invariant participants == map v | v in m.participants ::
            if v in todo then m.participants[v] else m.participants[v].(leftAt := Some(now))
          decreases todo
        {
          Inhabited(todo);
          var v :| v in todo;
          participants := participants[v := participants[v].(leftAt := Some(now))];
          todo := todo - {v};
        }
        assert participants == AllLeft(m.participants, now);
        matches := matches[r := m.(endedBy := Some(Ended(action)), endedAt := Some(now), participants := participants)];
      }
    }

    /** Sends everyone sitting in a room back to IDLE and out of the queue. */
    method ReleaseMembers(r: Id)
      modifies this`rows, this`queue
      ensures rows == map v | v in old(rows) :: if old(rows)[v].roomId == Some(r) then IdleRow else old(rows)[v]
      ensures queue == map v | v in old(queue) && !SitsIn(old(Snapshot()), v, r) :: old(queue)[v]
    {
      var sitting := set v | v in rows && rows[v].roomId == Some(r);
      var todo := sitting;
      while todo != {}
        invariant todo <= sitting
        invariant rows == map v | v in old(rows) :: if v in sitting && v !in todo then IdleRow else old(rows)[v]
        invariant queue == map v | v in old(queue) && !(v in sitting && v !in todo) :: old(queue)[v]
        decreases todo
      {
        Inhabited(todo);
        var v :| v in todo;
        rows := rows[v := IdleRow];
        queue := queue - {v};
        todo := todo - {v};
      }
    }

    method RecordExclusion(u: Id, peer: Id, action: EndAction)
      modifies this`blocks, this`noRematch
      ensures Snapshot() == Exclude(old(Snapshot()), u, peer, action)
    {
      if action == BLOCK {
        blocks := blocks + {(u, peer)};
      } else if action == NO_REMATCH {
        if (u, peer) !in noRematch {
          noRematch := noRematch + {(u, peer)};
        } else {
          assert noRematch + {(u, peer)} == noRematch;
        }
      }
    }

    method FinishRoom(u: Id, r: Id, action: EndAction, now: Time)
      requires r in rooms
      modifies this
      ensures Snapshot() == EndRoom(old(Snapshot()), u, r, action, now)
    {
      RecordExclusion(u, rooms[r].Peer(u), action);
      DestroyChatRoom(r, now);
      CloseSession(r, action, now);
    }

    method CloseSession(r: Id, action: EndAction, now: Time)
      modifies this`matches, this`rows, this`queue
      ensures matches == if r in old(matches) then old(matches)[r := EndMatch(old(matches)[r], Ended(action), now)]
                         else old(matches)
      ensures rows == map v | v in old(rows) :: if SitsIn(old(Snapshot()), v, r) then IdleRow else old(rows)[v]
      ensures queue == map v | v in old(queue) && !SitsIn(old(Snapshot()), v, r) :: old(queue)[v]
    {
      CloseMatch(r, action, now);
      ReleaseMembers(r);
    }

    method EndMatchRoom(u: Id, r: Id, action: EndAction, now: Time) returns (error: Option<Error>)
      requires Valid() && clock <= now
      modifies this
      ensures Valid() && Snapshot() == Step(old(Snapshot()), EndCall(u, r, action), now)
      ensures error == EndError(old(Snapshot()), u, r)
    {
      StepSound(Snapshot(), EndCall(u, r, action), now);
      if r !in rooms || !rooms[r].Has(u) {
        clock := now;
        return Some(RoomNotFound);
      }
      if rooms[r].status != RoomActive {
        clock := now;
        return Some(RoomEnded);
      }
      if rooms[r].kind != MATCH {
        clock := now;
        return Some(NotMatchRoom);
      }
      FinishRoom(u, r, action, now);
      clock := now;
      error := None;
    }

    method CheckActiveRoom(u: Id, r: Id, friends: bool, now: Time) returns (error: Option<Error>)
      ensures error == ActiveRoomError(Snapshot(), u, r, friends, now)
    {
      if r !in rooms {
        return Some(RoomNotFound);
      }
      var room := rooms[r];
      if u != room.a && u != room.b {
        return Some(Forbidden);
      }
      if room.status != RoomActive {
        return Some(RoomEnded);
      }
      var peer := if u == room.a then room.b else room.a;
      if u != peer && ((u, peer) in blocks || (peer, u) in blocks) {
        return Some(UserBlocked);
      }
      if room.kind == FRIEND {
        return if friends then None else Some(NotFriends);
      }
      if room.expiredAt.None? || room.expiredAt.value <= now {
        return Some(RoomEnded);
      }
      error := None;
    }

    method ExitRoom(u: Id, r: Id, friends: bool, now: Time) returns (error: Option<Error>)
      requires Valid() && clock <= now
      modifies this
      ensures Valid() && Snapshot() == Step(old(Snapshot()), ExitCall(u, r, friends), now)
      ensures error == ExitError(old(Snapshot()), u, r, friends, now)
    {
      ghost var w := Snapshot();
      StepSound(w, ExitCall(u, r, friends), now);
      error := LeaveRoom(u, r, friends, now);
      assert Snapshot() == Step(w, ExitCall(u, r, friends), now);
    }

    method LeaveRoom(u: Id, r: Id, friends: bool, now: Time) returns (error: Option<Error>)
      modifies this`rooms, this`clock
      ensures error == ExitError(old(Snapshot()), u, r, friends, now)
      ensures Snapshot() == Exit(old(Snapshot()), u, r, friends, now)
    {
      error := CheckActiveRoom(u, r, friends, now);
      if error.None? {
        if rooms[r].kind == FRIEND {
          error := Some(FriendRoomPersistent);
        } else {
          DestroyChatRoom(r, now);
        }
      }
      clock := now;
    }

    method BlockAnonymousRoom(u: Id, r: Id, friends: bool, now: Time) returns (error: Option<Error>)
      requires Valid() && clock <= now
      modifies this
      ensures Valid() && Snapshot() == Step(old(Snapshot()), BlockRoomCall(u, r, friends), now)
      ensures error == BlockRoomError(old(Snapshot()), u, r, friends, now)
    {
      ghost var w := Snapshot();
      StepSound(w, BlockRoomCall(u, r, friends), now);
      error := BlockAndEnd(u, r, friends, now);
      assert Snapshot() == Step(w, BlockRoomCall(u, r, friends), now);
    }

    method BlockAndEnd(u: Id, r: Id, friends: bool, now: Time) returns (error: Option<Error>)
      modifies this
      ensures error == BlockRoomError(old(Snapshot()), u, r, friends, now)
      ensures Snapshot() == BlockRoom(old(Snapshot()), u, r, friends, now)
    {
      error := CheckActiveRoom(u, r, friends, now);
      if error.None? {
        if rooms[r].kind == FRIEND {
          error := Some(NotAnonymousRoom);
        } else if rooms[r].kind == MATCH {
          FinishRoom(u, r, BLOCK, now);
        } else {
          blocks := blocks + {(u, rooms[r].Peer(u))};
          DestroyChatRoom(r, now);
        }
      }
      clock := now;
    }

    /** The room loop of the cleanup worker. */
    method ExpireRooms(now: Time) returns (count: nat)
      modifies this
      ensures Snapshot() == Timeout(old(Snapshot()), now)
      ensures count == |set r | r in old(rooms) && Overdue(old(rooms)[r], now)|
    {
      ghost var before := Snapshot();
      var overdue := set r | r in rooms && Overdue(rooms[r], now);
      count := |overdue|;
      var todo := overdue;
      TimeoutStart(before, overdue, now);
      while todo != {}
        invariant todo <= overdue
        invariant Snapshot() == TimeoutBut(before, todo, now)
        decreases todo
      {
        Inhabited(todo);
        var r :| r in todo;
        TimeoutStep(before, todo, r, now);
        ExpireRoom(r, now);
        todo := todo - {r};
      }
      TimeoutEnd(before, now);
      clock := now;
    }

    method ExpireRoom(r: Id, now: Time)
      requires r in rooms
      modifies this`rooms, this`matches, this`rows
      ensures Snapshot() == ExpireOne(old(Snapshot()), r, now)
    {
      rooms := rooms[r := rooms[r].(status := RoomExpired, destroyedAt := Some(now))];
      if rooms[r].kind == MATCH {
        if r in matches {
          matches := matches[r := TimeoutMatch(matches[r], now)];
        }
        rows := map u | u in rows :: if rows[u].roomId == Some(r) then IdleRow else rows[u];
      }
    }

    method CleanupRooms(now: Time) returns (count: nat)
      requires Valid() && clock <= now
      modifies this
      ensures Valid() && Snapshot() == Step(old(Snapshot()), TimeoutCall, now)
      ensures count == |set r | r in old(rooms) && Overdue(old(rooms)[r], now)|
    {
      StepSound(Snapshot(), TimeoutCall, now);
      count := ExpireRooms(now);
    }
  }
}
