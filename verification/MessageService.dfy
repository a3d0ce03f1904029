/** The save of a chat message over the message table, and the count of unread
    messages at the end of a conversation. */
module MessageService {
  import opened Basics
  import opened MessageModel
  import opened MessageProofs

  /** One message as the unread count sees it. */
  datatype Flag = Flag(sender: Id, isRead: bool)

  const UNREAD_WINDOW: nat := 20

  /** The newest messages, up to the window, that are all unread and all from
      `sender`: `count` of them, and no more. `rows` is newest first. */
  predicate IsUnreadRun(rows: seq<Flag>, sender: Id, count: nat) {
    && count <= |rows| && count <= 20
    && (forall i :: 0 <= i < count ==> rows[i] == Flag(sender, false))
    && (count < |rows| && count < 20 ==> rows[count] != Flag(sender, false))
  }

  method ConsecutiveUnreadCount(rows: seq<Flag>, sender: Id) returns (count: nat)
    ensures IsUnreadRun(rows, sender, count)
  {
    var window := if |rows| < UNREAD_WINDOW then rows else rows[..UNREAD_WINDOW];
    count := 0;
    while count < |window|
      invariant count <= |window|
      invariant forall i :: 0 <= i < count ==> rows[i] == Flag(sender, false)
    {
      if window[count].sender != sender || window[count].isRead {
        break;
      }
      count := count + 1;
    }
  }

  /** One more unread message lengthens the run by one until the window is full;
      a message of the other side ends it. */
  lemma UnreadRunGrows(rows: seq<Flag>, sender: Id, count: nat, newer: Flag, count1: nat)
    requires IsUnreadRun(rows, sender, count) && IsUnreadRun([newer] + rows, sender, count1)
    ensures count1 == if newer != Flag(sender, false) then 0 else if count < 20 then count + 1 else 20
  {
    var all := [newer] + rows;
    assert forall i :: 0 <= i < |rows| ==> all[i + 1] == rows[i];
    assert newer == Flag(sender, false) ==> forall i :: 0 <= i < count + 1 ==> all[i] == Flag(sender, false);
    assert newer == Flag(sender, false) && count1 < count + 1 ==> all[count1] == Flag(sender, false);
    assert count < |rows| ==> all[count + 1] == rows[count];
    assert all[0] == newer;
  }

  class Service {
    var messages: map<Id, Message>
    var endedAt: map<Id, nat>
    var lapsed: set<Id>
    var blocked: set<Id>
    var sockets: map<Id, Socket>
    ghost var calls: map<Id, Phase>
    var removed: set<Id>
    var nextMessage: Id
    var steps: nat

    ghost function Snapshot(): ChatWorld
      reads this
    {
      ChatWorld(messages, endedAt, lapsed, blocked, sockets, calls, removed, nextMessage, steps)
    }

    ghost predicate Valid()
      reads this
    {
      ChatSound(Snapshot())
    }

    constructor ()
      ensures Valid() && Snapshot() == EmptyChat
    {
      messages, endedAt, lapsed, blocked, sockets := map[], map[], {}, {}, map[];
      calls, removed, nextMessage, steps := map[], {}, 1, 0;
      new;
      assert Snapshot() == EmptyChat;
      EmptyChatSound();
    }

    // ----- sockets -----

    method OpenSocket(s: Id, r: Id, sender: Id) returns (accepted: bool)
      requires Valid() && s !in sockets
      modifies this
      ensures Valid() && Snapshot() == ChatStep(old(Snapshot()), ConnectCall(s, r, sender))
      ensures accepted <==> r !in endedAt && r !in lapsed && r !in blocked
    {
      ChatStepKeeps(Snapshot(), ConnectCall(s, r, sender));
      accepted := AddSocket(s, r, sender);
    }

    method AddSocket(s: Id, r: Id, sender: Id) returns (accepted: bool)
      requires s !in sockets
      modifies this
      ensures Snapshot() == ChatStep(old(Snapshot()), ConnectCall(s, r, sender))
      ensures accepted <==> r !in endedAt && r !in lapsed && r !in blocked
    {
      accepted := r !in endedAt && r !in lapsed && r !in blocked;
      if accepted {
        sockets := sockets[s := Socket(r, sender, true, Some(steps))];
      }
      steps := steps + 1;
    }

    /** The room check of a message over a socket. The session answers from its copy
        of the row; only a row that a rollback expired is read again. */
    method ReceiveMessage(s: Id, ghost call: Id, clientId: string, cipher: string) returns (admitted: bool)
      requires Valid() && call !in calls && Listening(Snapshot(), s)
      modifies this
      ensures Valid() && Snapshot() == ChatStep(old(Snapshot()), SendCall(s, call, clientId, cipher))
      ensures admitted <==> calls[call].Entered?
      ensures old(sockets)[s].readAt.Some? && old(sockets)[s].room !in lapsed + blocked && cipher != "" ==> admitted
    {
      ChatStepKeeps(Snapshot(), SendCall(s, call, clientId, cipher));
      admitted := CheckMessage(s, call, clientId, cipher);
    }

    method CheckMessage(s: Id, ghost call: Id, clientId: string, cipher: string) returns (admitted: bool)
      requires call !in calls && Listening(Snapshot(), s)
      modifies this
      ensures Snapshot() == ChatStep(old(Snapshot()), SendCall(s, call, clientId, cipher))
      ensures call in calls && (admitted <==> calls[call].Entered?)
    {
      var socket := sockets[s];
      var live := true;
      if socket.readAt.None? {
        live := socket.room !in endedAt;
        if live {
          sockets := sockets[s := socket.(readAt := Some(steps))];
        }
      }
      admitted := live && socket.room !in lapsed && socket.room !in blocked && cipher != "";
      calls := calls[call := if admitted then Entered(Key(socket.room, socket.sender, clientId), cipher, steps, Some(s))
                             else Rejected];
      steps := steps + 1;
    }

    method CloseSocket(s: Id)
      requires Valid()
      modifies this
      ensures Valid() && Snapshot() == ChatStep(old(Snapshot()), DisconnectCall(s))
    {
      ChatStepKeeps(Snapshot(), DisconnectCall(s));
      DropSocket(s);
    }

    method DropSocket(s: Id)
      modifies this
      ensures Snapshot() == ChatStep(old(Snapshot()), DisconnectCall(s))
    {
      if s in sockets {
        sockets := sockets[s := sockets[s].(connected := false)];
      }
      steps := steps + 1;
    }

    // ----- the save -----

    method FindByClientId(k: Key) returns (found: Option<Id>)
      ensures found == Existing(Snapshot(), k)
    {
      var rows := set id | id in messages && messages[id].key == k;
      found := if rows == {} then None else Some(Min(rows));
    }

    /** The block check at the head of the save. */
    method ClearMessage(ghost call: Id, r: Id) returns (cleared: bool)
      requires Valid() && call in calls && calls[call].Entered? && calls[call].key.room == r
      modifies this
      ensures Valid() && Snapshot() == ChatStep(old(Snapshot()), ClearCall(call))
      ensures cleared <==> r !in old(blocked)
    {
      ChatStepKeeps(Snapshot(), ClearCall(call));
      cleared := CheckBlock(call, r);
    }

    method CheckBlock(ghost call: Id, r: Id) returns (cleared: bool)
      requires call in calls && calls[call].Entered? && calls[call].key.room == r
      modifies this
      ensures Snapshot() == ChatStep(old(Snapshot()), ClearCall(call))
      ensures cleared <==> r !in old(blocked)
    {
      cleared := r !in blocked;
      ghost var p := calls[call];
      calls := calls[call := if cleared then Cleared(p.key, p.cipher, p.enteredAt, p.via) else Rejected];
      steps := steps + 1;
    }

    /** The insert with its constraint: a duplicate rolls back, which expires the
        session's rows, and returns the winner, or fails and drops the socket. */
    method InsertRow(ghost call: Id, k: Key, cipher: string, via: Option<Id>, reread: bool) returns (saved: Option<(Id, bool)>)
      requires call in calls && calls[call].Looked? && calls[call].key == k
      requires calls[call].cipher == cipher && calls[call].via == via
      modifies this
      ensures Snapshot() == ChatStep(old(Snapshot()), InsertCall(call, reread))
      ensures calls[call] == if saved.Some? then Saved(k, saved.value.0, saved.value.1) else Rejected
      ensures saved.Some? <==> reread || Existing(old(Snapshot()), k).None?
      ensures saved.Some? ==> (saved.value.1 <==> Existing(old(Snapshot()), k).None?)
    {
      var found := FindByClientId(k);
      if found.None? {
        saved := Some((nextMessage, true));
        messages := messages[nextMessage := Message(k, cipher, steps)];
        nextMessage := nextMessage + 1;
      } else if reread {
        saved := Some((found.value, false));
        if via.Some? && via.value in sockets {
          sockets := sockets[via.value := sockets[via.value].(readAt := None)];
        }
      } else {
        saved := None;
        if via.Some? && via.value in sockets {
          sockets := sockets[via.value := sockets[via.value].(connected := false)];
        }
      }
      calls := calls[call := if saved.Some? then Saved(k, saved.value.0, saved.value.1) else Rejected];
      steps := steps + 1;
    }

    method InsertMessage(ghost call: Id, k: Key, cipher: string, via: Option<Id>, reread: bool) returns (saved: Option<(Id, bool)>)
      requires Valid() && call in calls && calls[call].Looked? && calls[call].key == k
      requires calls[call].cipher == cipher && calls[call].via == via
      modifies this
      ensures Valid() && Snapshot() == ChatStep(old(Snapshot()), InsertCall(call, reread))
      ensures call in calls && calls[call] == if saved.Some? then Saved(k, saved.value.0, saved.value.1) else Rejected
      ensures saved.None? ==> !reread && Existing(old(Snapshot()), k).Some?
    {
      ChatStepKeeps(Snapshot(), InsertCall(call, reread));
      saved := InsertRow(call, k, cipher, via, reread);
    }

    // ----- rooms and moderation -----

    /** `destroy_room` and the cleanup worker end a room and wipe its rows. */
    method WipeRows(r: Id)
      modifies this
      ensures Snapshot() == ChatStep(old(Snapshot()), EndRoomCall(r))
    {
      if r !in endedAt {
        endedAt := endedAt[r := steps];
        messages := map id | id in messages ::
          if messages[id].key.room == r then messages[id].(cipher := "") else messages[id];
      }
      steps := steps + 1;
    }

    method WipeRoom(r: Id)
      requires Valid()
      modifies this
      ensures Valid() && Snapshot() == ChatStep(old(Snapshot()), EndRoomCall(r))
    {
      ChatStepKeeps(Snapshot(), EndRoomCall(r));
      WipeRows(r);
    }

    /** Content removal when a complaint about a message is upheld. */
    method RemoveContent(id: Id)
      requires Valid()
      modifies this
      ensures Valid() && Snapshot() == ChatStep(old(Snapshot()), RemoveCall(id))
    {
      ChatStepKeeps(Snapshot(), RemoveCall(id));
      EmptyRow(id);
    }

    method EmptyRow(id: Id)
      modifies this
      ensures Snapshot() == ChatStep(old(Snapshot()), RemoveCall(id))
    {
      if id in messages {
        messages := messages[id := messages[id].(cipher := "")];
        removed := removed + {id};
      }
      steps := steps + 1;
    }
  }
}
