/** The committed database rows and the Redis queue behind online matching, and
    what each service call does to them. A call that raises leaves the world
    as it was. */
module MatchingModel {
  import opened Basics

  const HEARTBEAT_SECONDS: Time := 60.0
  const MATCH_ROOM_SECONDS: Time := 7200.0
  const REMATCH_FORBIDDEN_SECONDS: Time := 600.0
  const REMATCH_PENALTY_SECONDS: Time := 86400.0

  datatype Purpose = VENT | LISTEN | CASUAL
  datatype Topic = LIFE | STUDY | WORK | RELATIONSHIP | INTEREST | LATE_NIGHT
  datatype MatchStatus = IDLE | WAITING | ACTIVE
  datatype RoomStatus = RoomActive | RoomDestroyed | RoomExpired
  datatype EndAction = END | NO_REMATCH | BLOCK
  datatype EndReason = Ended(action: EndAction) | TimedOut

  datatype StateRow = StateRow(
    status: MatchStatus,
    purpose: Option<Purpose>,
    topic: Option<Topic>,
    roomId: Option<Id>,
    queuedAt: Option<Time>,
    heartbeatAt: Option<Time>)

  const IdleRow := StateRow(IDLE, None, None, None, None, None)

  datatype Room = Room(
    kind: RoomKind,
    a: Id,
    b: Id,
    status: RoomStatus,
    createdAt: Time,
    expiredAt: Option<Time>,
    destroyedAt: Option<Time>)
  {
    predicate Has(u: Id) { u == a || u == b }

    function Peer(u: Id): Id { if u == a then b else a }
  }

  datatype Participant = Participant(purpose: Purpose, topic: Topic, joinedAt: Time, leftAt: Option<Time>)

  /** A match row with its participant rows, keyed by its room. */
  datatype Match = Match(
    createdAt: Time,
    endedBy: Option<EndReason>,
    endedAt: Option<Time>,
    participants: map<Id, Participant>)

  datatype Recent = Recent(lastMatchedAt: Time, matchCount: nat)

  datatype World = World(
    rows: map<Id, StateRow>,
    queue: map<Id, Time>,
    rooms: map<Id, Room>,
    matches: map<Id, Match>,
    recent: map<Pair, Recent>,
    noRematch: set<(Id, Id)>,
    blocks: set<(Id, Id)>,
    nextRoom: Id,
    clock: Time)

  datatype Error =
    | MatchAlreadyActive
    | RoomNotFound
    | Forbidden
    | RoomEnded
    | UserBlocked
    | NotFriends
    | NotMatchRoom
    | NotAnonymousRoom
    | FriendRoomPersistent

  /** What `_status_payload` reports. The status is read before the healing of a
      dead room, so it can be ACTIVE with no room. */
  datatype Payload = Payload(
    status: MatchStatus,
    purpose: Option<Purpose>,
    topic: Option<Topic>,
    queuedAt: Option<Time>,
    room: Option<Id>)

  const EmptyWorld := World(map[], map[], map[], map[], map[], {}, {}, 1, 0.0)

  /** A missing row is created IDLE on first use. */
  function RowOf(w: World, u: Id): StateRow {
    if u in w.rows then w.rows[u] else IdleRow
  }

  predicate Waiting(w: World, u: Id) {
    u in w.rows && w.rows[u].status == WAITING
  }

  predicate RoomLive(w: World, r: Id) {
    r in w.rooms && w.rooms[r].status == RoomActive
  }

  predicate IsMatchRoom(w: World, r: Id) {
    r in w.rooms && w.rooms[r].kind == MATCH
  }

  // ----- exclusions and scores -----

  predicate BlockedBetween(w: World, u: Id, v: Id) {
    BlockedIn(w.blocks, u, v)
  }

  predicate Excluded(w: World, u: Id, v: Id) {
    BlockedBetween(w, u, v) || (u, v) in w.noRematch || (v, u) in w.noRematch
  }

  predicate Complementary(p: Purpose, q: Purpose) {
    {p, q} == {VENT, LISTEN}
  }

  function PurposeScore(p: Purpose, q: Option<Purpose>): real {
    if q.Some? && Complementary(p, q.value) then 100.0
    else if p == CASUAL && q == Some(CASUAL) then 80.0
    else if q == Some(p) then 25.0
    else 0.0
  }

  function TopicScore(t: Topic, c: Option<Topic>): real {
    if c == Some(t) then 35.0 else 0.0
  }

  function WaitingBonus(queuedAt: Option<Time>, now: Time): real {
    var waited := now - queuedAt.GetOr(now);
    var bonus := (if waited < 0.0 then 0.0 else waited) / 3.0;
    if bonus < 40.0 then bonus else 40.0
  }

  function Compatibility(p: Purpose, t: Topic, candidate: StateRow, recent: Option<Recent>, now: Time): real {
    var score := PurposeScore(p, candidate.purpose) + TopicScore(t, candidate.topic)
                 + WaitingBonus(candidate.queuedAt, now);
    if recent.None? then score
    else
      var age := now - recent.value.lastMatchedAt;
      if age < REMATCH_FORBIDDEN_SECONDS then -10000.0
      else if age < REMATCH_PENALTY_SECONDS then score - 45.0
      else score
  }

  function RecentOf(w: World, p: Pair): Option<Recent> {
    if p in w.recent then Some(w.recent[p]) else None
  }

  function Score(w: World, u: Id, v: Id, now: Time): real {
    var mine := RowOf(w, u);
    Compatibility(mine.purpose.GetOr(CASUAL), mine.topic.GetOr(LIFE), RowOf(w, v), RecentOf(w, PairOf(u, v)), now)
  }

  // ----- choosing a peer -----

  predicate Fresh(row: StateRow, now: Time) {
    row.heartbeatAt.Some? && row.heartbeatAt.value >= now - HEARTBEAT_SECONDS
  }

  function Candidates(w: World, u: Id, now: Time): set<Id> {
    set v | v in w.rows && v != u && w.rows[v].status == WAITING && Fresh(w.rows[v], now)
  }

  /** The scored candidates, excluded ones skipped, in the given order. */
  function Ranked(w: World, u: Id, ids: seq<Id>, now: Time): seq<(real, Id)> {
    if ids == [] then []
    else
      var front := Ranked(w, u, ids[..|ids| - 1], now);
      var v := ids[|ids| - 1];
      if Excluded(w, u, v) then front else front + [(Score(w, u, v, now), v)]
  }

  function Choose(w: World, u: Id, now: Time): Option<Id> {
    var sorted := StableDescending(Ranked(w, u, Ascending(Candidates(w, u, now)), now));
    if sorted == [] || sorted[0].0 < 0.0 then None else Some(sorted[0].1)
  }

  // ----- steps -----

  predicate StaleWaiter(row: StateRow, now: Time) {
    row.status == WAITING && row.heartbeatAt.Some? && row.heartbeatAt.value < now - HEARTBEAT_SECONDS
  }

  /** Back to IDLE with the request forgotten; `room_id` is not touched. */
  function ResetRequest(row: StateRow): StateRow {
    StateRow(IDLE, None, None, row.roomId, None, None)
  }

  function CleanupStale(w: World, now: Time): World {
    w.(rows := map u | u in w.rows :: if StaleWaiter(w.rows[u], now) then ResetRequest(w.rows[u]) else w.rows[u],
       queue := map u | u in w.queue && !(u in w.rows && StaleWaiter(w.rows[u], now)) :: w.queue[u])
  }

  predicate DeadEnd(w: World, row: StateRow) {
    row.status == ACTIVE && row.roomId.Some? && !RoomLive(w, row.roomId.value)
  }

  function StatusPayload(w: World, row: StateRow): Payload {
    Payload(row.status, row.purpose, row.topic, row.queuedAt,
            if row.status == ACTIVE && row.roomId.Some? && RoomLive(w, row.roomId.value) then row.roomId else None)
  }

  function Status(w: World, u: Id, now: Time): World {
    var w1 := CleanupStale(w, now);
    var row := RowOf(w1, u);
    w1.(rows := w1.rows[u := if DeadEnd(w1, row) then row.(status := IDLE, roomId := None) else row], clock := now)
  }

  function Enqueue(w: World, u: Id, p: Purpose, t: Topic, now: Time): World {
    var row := RowOf(w, u);
    var asked := if row.status == WAITING then row
                 else row.(status := WAITING, purpose := Some(p), topic := Some(t), queuedAt := Some(now));
    w.(rows := w.rows[u := asked.(heartbeatAt := Some(now))], queue := w.queue[u := now])
  }

  function Bump(recent: Option<Recent>, now: Time): Recent {
    if recent.Some? then Recent(now, recent.value.matchCount + 1) else Recent(now, 1)
  }

  function Joined(row: StateRow, now: Time): Participant {
    Participant(row.purpose.GetOr(CASUAL), row.topic.GetOr(LIFE), now, None)
  }

  function Seated(row: StateRow, r: Id, now: Time): StateRow {
    row.(status := ACTIVE, roomId := Some(r), heartbeatAt := Some(now))
  }

  /** The commit of a successful match of `u` with `v`. */
  function Pairing(w: World, u: Id, v: Id, now: Time): World {
    var r := w.nextRoom;
    var pair := PairOf(u, v);
    w.(rows := w.rows[u := Seated(RowOf(w, u), r, now)][v := Seated(RowOf(w, v), r, now)],
       queue := w.queue - {u, v},
       rooms := w.rooms[r := Room(MATCH, pair.low, pair.high, RoomActive, now, Some(now + MATCH_ROOM_SECONDS), None)],
       matches := w.matches[r := Match(now, None, None, map[u := Joined(RowOf(w, u), now), v := Joined(RowOf(w, v), now)])],
       recent := w.recent[pair := Bump(RecentOf(w, pair), now)],
       nextRoom := r + 1)
  }

  function TryMatch(w: World, u: Id, now: Time): World {
    var best := Choose(w, u, now);
    if best.None? then w else Pairing(w, u, best.value, now)
  }

  /** The user is already matched as far as the state row tells. */
  predicate Seats(row: StateRow) {
    row.status == ACTIVE && row.roomId.Some?
  }

  function JoinAfterCleanup(w: World, u: Id, p: Purpose, t: Topic, now: Time): World {
    if Seats(RowOf(w, u)) then w else TryMatch(Enqueue(w, u, p, t, now), u, now)
  }

  function Join(w: World, u: Id, p: Purpose, t: Topic, now: Time): World {
    JoinAfterCleanup(CleanupStale(w, now).(clock := now), u, p, t, now)
  }

  /** A fresh match echoes the request, not the stored row. */
  function QueueReply(queued: World, u: Id, p: Purpose, t: Topic, now: Time): Payload {
    if Choose(queued, u, now).Some? then
      Payload(ACTIVE, Some(p), Some(t), RowOf(queued, u).queuedAt, Some(queued.nextRoom))
    else StatusPayload(queued, RowOf(queued, u))
  }

  function JoinReply(w: World, u: Id, p: Purpose, t: Topic, now: Time): Payload {
    if Seats(RowOf(w, u)) then StatusPayload(w, RowOf(w, u))
    else QueueReply(Enqueue(w, u, p, t, now), u, p, t, now)
  }

  function JoinPayload(w: World, u: Id, p: Purpose, t: Topic, now: Time): Payload {
    JoinReply(CleanupStale(w, now).(clock := now), u, p, t, now)
  }

  function Heartbeat(w: World, u: Id, now: Time): World {
    var row := RowOf(w, u);
    if row.status == WAITING then
      w.(rows := w.rows[u := row.(heartbeatAt := Some(now))], queue := w.queue[u := row.queuedAt.GetOr(now)], clock := now)
    else w.(clock := now)
  }

  function Leave(w: World, u: Id): World {
    w.(rows := w.rows[u := ResetRequest(RowOf(w, u))], queue := w.queue - {u})
  }

  function CancelError(w: World, u: Id): Option<Error> {
    if RowOf(w, u).status == ACTIVE then Some(MatchAlreadyActive) else None
  }

  function Cancel(w: World, u: Id, now: Time): World {
    if CancelError(w, u).Some? then w.(clock := now) else Leave(w, u).(clock := now)
  }

  function Disconnect(w: World, u: Id, now: Time): World {
    if RowOf(w, u).status != WAITING then w.(clock := now) else Leave(w, u).(clock := now)
  }

  function Close(room: Room, status: RoomStatus, now: Time): Room {
    if room.status == RoomActive then room.(status := status, destroyedAt := Some(now)) else room
  }

  function AllLeft(participants: map<Id, Participant>, now: Time): map<Id, Participant> {
    map v | v in participants :: participants[v].(leftAt := Some(now))
  }

  function EndMatch(m: Match, reason: EndReason, now: Time): Match {
    m.(endedBy := Some(reason), endedAt := Some(now), participants := AllLeft(m.participants, now))
  }

  predicate SitsIn(w: World, u: Id, r: Id) {
    u in w.rows && w.rows[u].roomId == Some(r)
  }

  function EndError(w: World, u: Id, r: Id): Option<Error> {
    if r !in w.rooms || !w.rooms[r].Has(u) then Some(RoomNotFound)
    else if w.rooms[r].status != RoomActive then Some(RoomEnded)
    else if w.rooms[r].kind != MATCH then Some(NotMatchRoom)
    else None
  }

  function Exclude(w: World, u: Id, peer: Id, action: EndAction): World {
    match action
    case BLOCK => w.(blocks := w.blocks + {(u, peer)})
    case NO_REMATCH => w.(noRematch := w.noRematch + {(u, peer)})
    case END => w
  }

  function EndRoom(w: World, u: Id, r: Id, action: EndAction, now: Time): World
    requires r in w.rooms
  {
    Exclude(w, u, w.rooms[r].Peer(u), action).(
      rooms := w.rooms[r := Close(w.rooms[r], RoomDestroyed, now)],
      matches := if r in w.matches then w.matches[r := EndMatch(w.matches[r], Ended(action), now)] else w.matches,
      rows := map v | v in w.rows :: if SitsIn(w, v, r) then IdleRow else w.rows[v],
      queue := map v | v in w.queue && !SitsIn(w, v, r) :: w.queue[v])
  }

  function End(w: World, u: Id, r: Id, action: EndAction, now: Time): World {
    if EndError(w, u, r).Some? then w.(clock := now) else EndRoom(w, u, r, action, now).(clock := now)
  }

  /** `get_active_room_for_user`; `friends` says whether the two are friends now. */
  function ActiveRoomError(w: World, u: Id, r: Id, friends: bool, now: Time): Option<Error> {
    if r !in w.rooms then Some(RoomNotFound)
    else if !w.rooms[r].Has(u) then Some(Forbidden)
    else if w.rooms[r].status != RoomActive then Some(RoomEnded)
    else if BlockedBetween(w, u, w.rooms[r].Peer(u)) then Some(UserBlocked)
    else if w.rooms[r].kind == FRIEND then (if friends then None else Some(NotFriends))
    else if w.rooms[r].expiredAt.None? || w.rooms[r].expiredAt.value <= now then Some(RoomEnded)
    else None
  }

  function ExitError(w: World, u: Id, r: Id, friends: bool, now: Time): Option<Error> {
    var e := ActiveRoomError(w, u, r, friends, now);
    if e.Some? then e
    else if r in w.rooms && w.rooms[r].kind == FRIEND then Some(FriendRoomPersistent)
    else None
  }

  function DestroyRoom(w: World, r: Id, now: Time): World
    requires r in w.rooms
  {
    w.(rooms := w.rooms[r := Close(w.rooms[r], RoomDestroyed, now)])
  }

  /** The generic exit destroys the room and nothing else. */
  function Exit(w: World, u: Id, r: Id, friends: bool, now: Time): World {
    if ExitError(w, u, r, friends, now).Some? || r !in w.rooms then w.(clock := now)
    else DestroyRoom(w, r, now).(clock := now)
  }

  function BlockRoomError(w: World, u: Id, r: Id, friends: bool, now: Time): Option<Error> {
    var e := ActiveRoomError(w, u, r, friends, now);
    if e.Some? then e
    else if r in w.rooms && w.rooms[r].kind == FRIEND then Some(NotAnonymousRoom)
    else if r in w.rooms && w.rooms[r].kind == MATCH then EndError(w, u, r)
    else None
  }

  function BlockRoom(w: World, u: Id, r: Id, friends: bool, now: Time): World {
    if BlockRoomError(w, u, r, friends, now).Some? || r !in w.rooms then w.(clock := now)
    else if w.rooms[r].kind == MATCH then EndRoom(w, u, r, BLOCK, now).(clock := now)
    else DestroyRoom(Exclude(w, u, w.rooms[r].Peer(u), BLOCK), r, now).(clock := now)
  }

  predicate Overdue(room: Room, now: Time) {
    room.status == RoomActive && room.expiredAt.Some? && room.expiredAt.value <= now
  }

  predicate OverdueMatch(w: World, r: Id, now: Time) {
    IsMatchRoom(w, r) && Overdue(w.rooms[r], now)
  }

  function TimeoutMatch(m: Match, now: Time): Match {
    m.(endedBy := Some(TimedOut), endedAt := Some(now),
       participants := map v | v in m.participants ::
         if m.participants[v].leftAt.None? then m.participants[v].(leftAt := Some(now)) else m.participants[v])
  }

  predicate Evicted(w: World, u: Id, now: Time) {
    u in w.rows && w.rows[u].roomId.Some? && OverdueMatch(w, w.rows[u].roomId.value, now)
  }

  /** The room half of the cleanup worker. */
  function Timeout(w: World, now: Time): World {
    w.(rooms := map r | r in w.rooms ::
         if Overdue(w.rooms[r], now) then Close(w.rooms[r], RoomExpired, now) else w.rooms[r],
       matches := map r | r in w.matches ::
         if OverdueMatch(w, r, now) then TimeoutMatch(w.matches[r], now) else w.matches[r],
       rows := map u | u in w.rows :: if Evicted(w, u, now) then IdleRow else w.rows[u],
       clock := now)
  }

  /** A letter room (with a lifetime) or a friend room (without one) opens. */
  function OpenRoom(w: World, a: Id, b: Id, ttl: Option<Time>, now: Time): World {
    if a == b then w.(clock := now)
    else w.(rooms := w.rooms[w.nextRoom :=
         Room(if ttl.Some? then TEMPORARY else FRIEND, a, b, RoomActive, now,
              if ttl.Some? then Some(now + ttl.value) else None, None)],
       nextRoom := w.nextRoom + 1,
       clock := now)
  }

  /** A block placed outside any room. */
  function PlaceBlock(w: World, u: Id, v: Id, now: Time): World {
    if u == v then w.(clock := now) else w.(blocks := w.blocks + {(u, v)}, clock := now)
  }

  // ----- runs -----

  datatype Call =
    | StatusCall(u: Id)
    | JoinCall(u: Id, purpose: Purpose, topic: Topic)
    | HeartbeatCall(u: Id)
    | CancelCall(u: Id)
    | DisconnectCall(u: Id)
    | EndCall(u: Id, room: Id, action: EndAction)
    | ExitCall(u: Id, room: Id, friends: bool)
    | BlockRoomCall(u: Id, room: Id, friends: bool)
    | TimeoutCall
    | OpenRoomCall(a: Id, b: Id, ttl: Option<Time>)
    | PlaceBlockCall(u: Id, v: Id)

  function Step(w: World, c: Call, now: Time): World {
    match c
    case StatusCall(u) => Status(w, u, now)
    case JoinCall(u, p, t) => Join(w, u, p, t, now)
    case HeartbeatCall(u) => Heartbeat(w, u, now)
    case CancelCall(u) => Cancel(w, u, now)
    case DisconnectCall(u) => Disconnect(w, u, now)
    case EndCall(u, r, action) => End(w, u, r, action, now)
    case ExitCall(u, r, friends) => Exit(w, u, r, friends, now)
    case BlockRoomCall(u, r, friends) => BlockRoom(w, u, r, friends, now)
    case TimeoutCall => Timeout(w, now)
    case OpenRoomCall(a, b, ttl) => OpenRoom(w, a, b, ttl, now)
    case PlaceBlockCall(u, v) => PlaceBlock(w, u, v, now)
  }

  /** A history: calls with the server time of each. */
  type History = seq<(Time, Call)>

  /** Time never runs backwards. */
  predicate Timely(h: History, from: Time) {
    h == [] || (from <= h[0].0 && Timely(h[1..], h[0].0))
  }

  function Run(w: World, h: History): World
    decreases |h|
  {
    if h == [] then w else Run(Step(w, h[0].1, h[0].0), h[1..])
  }
}
