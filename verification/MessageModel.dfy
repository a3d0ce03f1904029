/** Saving chat messages with the steps of concurrent calls interleaved: entering
    a live room, looking the client id up, and inserting under the unique
    constraint are separate steps, and a room may end in between. A request reads
    the room afresh; a chat socket keeps one database session, so it goes on with
    the room row it read first. */
module MessageModel {
  import opened Basics

  /** What the unique constraint is over. */
  datatype Key = Key(room: Id, sender: Id, clientId: string)

  /** `cipher` is empty once the content is wiped; `insertedAt` is the step number. */
  datatype Message = Message(key: Key, cipher: string, insertedAt: nat)

  /** A call enters the room, is cleared of blocks once more, looks its id up and
      inserts. `via` is the socket a message came over, if it was not a request. */
  datatype Phase =
    | Entered(key: Key, cipher: string, enteredAt: nat, via: Option<Id>)
    | Cleared(key: Key, cipher: string, enteredAt: nat, via: Option<Id>)
    | Looked(key: Key, cipher: string, enteredAt: nat, via: Option<Id>)
    | Saved(key: Key, message: Id, created: bool)
    | Rejected

  /** `readAt` is the step in which the session's copy of the room row was read,
      as live; it is None when the next use reads the row again. */
  datatype Socket = Socket(room: Id, sender: Id, connected: bool, readAt: Option<nat>)

  /** `lapsed` holds the rooms whose lifetime is over, `blocked` those with a block
      between their users, `removed` the messages a moderator emptied. */
  datatype ChatWorld = ChatWorld(
    messages: map<Id, Message>,
    endedAt: map<Id, nat>,
    lapsed: set<Id>,
    blocked: set<Id>,
    sockets: map<Id, Socket>,
    calls: map<Id, Phase>,
    removed: set<Id>,
    nextMessage: Id,
    steps: nat)

  const EmptyChat := ChatWorld(map[], map[], {}, {}, map[], map[], {}, 1, 0)

  predicate InFlight(p: Phase) {
    p.Entered? || p.Cleared? || p.Looked?
  }

  function WithKey(w: ChatWorld, k: Key): set<Id> {
    set id | id in w.messages && w.messages[id].key == k
  }

  function Existing(w: ChatWorld, k: Key): Option<Id> {
    if WithKey(w, k) == {} then None else Some(Min(WithKey(w, k)))
  }

  function Tick(w: ChatWorld): ChatWorld {
    w.(steps := w.steps + 1)
  }

  function SetPhase(w: ChatWorld, c: Id, p: Phase): ChatWorld {
    w.(calls := w.calls[c := p])
  }

  /** What a fresh read of the room lets through. */
  predicate RoomOpen(w: ChatWorld, r: Id) {
    r !in w.endedAt && r !in w.lapsed && r !in w.blocked
  }

  /** A request finds its room live, or is turned away. */
  function Enter(w: ChatWorld, c: Id, k: Key, cipher: string): ChatWorld {
    if c in w.calls then w
    else SetPhase(w, c, if !RoomOpen(w, k.room) || cipher == "" then Rejected else Entered(k, cipher, w.steps, None))
  }

  // ----- sockets -----

  function Connect(w: ChatWorld, s: Id, r: Id, sender: Id): ChatWorld {
    if s in w.sockets || !RoomOpen(w, r) then w
    else w.(sockets := w.sockets[s := Socket(r, sender, true, Some(w.steps))])
  }

  function Disconnect(w: ChatWorld, s: Id): ChatWorld {
    if s !in w.sockets then w else w.(sockets := w.sockets[s := w.sockets[s].(connected := false)])
  }

  /** A socket's loop takes the next message only when the last one is done with. */
  predicate Busy(w: ChatWorld, s: Id) {
    exists c :: c in w.calls && InFlight(w.calls[c]) && w.calls[c].via == Some(s)
  }

  predicate Listening(w: ChatWorld, s: Id) {
    s in w.sockets && w.sockets[s].connected && !Busy(w, s)
  }

  /** The room as the socket's session has it: its own copy, or a fresh read. */
  predicate SeenLive(w: ChatWorld, s: Id)
    requires s in w.sockets
  {
    w.sockets[s].readAt.Some? || w.sockets[s].room !in w.endedAt
  }

  function Reread(w: ChatWorld, s: Id): ChatWorld
    requires s in w.sockets
  {
    if w.sockets[s].readAt.None? && w.sockets[s].room !in w.endedAt
    then w.(sockets := w.sockets[s := w.sockets[s].(readAt := Some(w.steps))]) else w
  }

  /** A message over a socket: the status is that of the session's copy; lifetime
      and blocks are checked for every message. */
  function Send(w: ChatWorld, s: Id, c: Id, clientId: string, cipher: string): ChatWorld {
    if c in w.calls || !Listening(w, s) then w
    else
      var k := Key(w.sockets[s].room, w.sockets[s].sender, clientId);
      SetPhase(Reread(w, s), c,
               if !SeenLive(w, s) || k.room in w.lapsed || k.room in w.blocked || cipher == "" then Rejected
               else Entered(k, cipher, w.steps, Some(s)))
  }

  /** A rollback expires every row of its session. */
  function Forget(w: ChatWorld, via: Option<Id>): ChatWorld {
    if via.Some? && via.value in w.sockets
    then w.(sockets := w.sockets[via.value := w.sockets[via.value].(readAt := None)]) else w
  }

  // ----- the save -----

  /** The save begins by checking for a block again; the room itself is not read again. */
  function Clear(w: ChatWorld, c: Id): ChatWorld {
    if c !in w.calls || !w.calls[c].Entered? then w
    else
      var p := w.calls[c];
      SetPhase(w, c, if p.key.room in w.blocked then Rejected else Cleared(p.key, p.cipher, p.enteredAt, p.via))
  }

  function LookUp(w: ChatWorld, c: Id): ChatWorld {
    if c !in w.calls || !w.calls[c].Cleared? then w
    else
      var p := w.calls[c];
      var found := Existing(w, p.key);
      SetPhase(w, c, if found.Some? then Saved(p.key, found.value, false) else Looked(p.key, p.cipher, p.enteredAt, p.via))
  }

  /** The rate limit or the risk check turns the call away. */
  function Refuse(w: ChatWorld, c: Id): ChatWorld {
    if c in w.calls && w.calls[c].Looked? then SetPhase(w, c, Rejected) else w
  }

  /** The insert. A violation of the constraint rolls back and reads the row that
      won; if the rows that the rollback expired cannot be read again, the call
      fails instead, and takes its socket down. */
  function Insert(w: ChatWorld, c: Id, reread: bool): ChatWorld {
    if c !in w.calls || !w.calls[c].Looked? then w
    else
      var p := w.calls[c];
      var found := Existing(w, p.key);
      if found.Some? && reread then SetPhase(Forget(w, p.via), c, Saved(p.key, found.value, false))
      else if found.Some? then SetPhase(if p.via.Some? then Disconnect(w, p.via.value) else w, c, Rejected)
      else SetPhase(w.(messages := w.messages[w.nextMessage := Message(p.key, p.cipher, w.steps)],
                       nextMessage := w.nextMessage + 1),
                    c, Saved(p.key, w.nextMessage, true))
  }

  // ----- rooms and moderation -----

  /** Ending an anonymous room wipes what it holds; rows and sockets stay. */
  function EndRoom(w: ChatWorld, r: Id): ChatWorld {
    if r in w.endedAt then w
    else w.(endedAt := w.endedAt[r := w.steps],
            messages := map id | id in w.messages ::
              if w.messages[id].key.room == r then w.messages[id].(cipher := "") else w.messages[id])
  }

  /** A moderator empties one message after a complaint. */
  function RemoveMessage(w: ChatWorld, id: Id): ChatWorld {
    if id !in w.messages then w
    else w.(messages := w.messages[id := w.messages[id].(cipher := "")], removed := w.removed + {id})
  }

  datatype ChatCall =
    | EnterCall(call: Id, key: Key, cipher: string)
    | ConnectCall(socket: Id, room: Id, sender: Id)
    | DisconnectCall(socket: Id)
    | SendCall(socket: Id, call: Id, clientId: string, cipher: string)
    | ClearCall(call: Id)
    | LookUpCall(call: Id)
    | RefuseCall(call: Id)
    | InsertCall(call: Id, reread: bool)
    | EndRoomCall(room: Id)
    | LapseCall(room: Id)
    | BlockCall(room: Id)
    | RemoveCall(message: Id)

  function ChatStep(w: ChatWorld, c: ChatCall): ChatWorld {
    Tick(match c
         case EnterCall(call, k, cipher) => Enter(w, call, k, cipher)
         case ConnectCall(s, r, sender) => Connect(w, s, r, sender)
         case DisconnectCall(s) => Disconnect(w, s)
         case SendCall(s, call, clientId, cipher) => Send(w, s, call, clientId, cipher)
         case ClearCall(call) => Clear(w, call)
         case LookUpCall(call) => LookUp(w, call)
         case RefuseCall(call) => Refuse(w, call)
         case InsertCall(call, reread) => Insert(w, call, reread)
         case EndRoomCall(r) => EndRoom(w, r)
         case LapseCall(r) => w.(lapsed := w.lapsed + {r})
         case BlockCall(r) => w.(blocked := w.blocked + {r})
         case RemoveCall(id) => RemoveMessage(w, id))
  }

  function ChatRun(w: ChatWorld, cs: seq<ChatCall>): ChatWorld
    decreases |cs|
  {
    if cs == [] then w else ChatRun(ChatStep(w, cs[0]), cs[1..])
  }

  /** An uninterrupted save. */
  function Save(w: ChatWorld, c: Id, k: Key, cipher: string): ChatWorld {
    ChatRun(w, [EnterCall(c, k, cipher), ClearCall(c)] + [LookUpCall(c), InsertCall(c, true)])
  }
}
