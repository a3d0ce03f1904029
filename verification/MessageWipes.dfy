/** What the wipe of an ended room covers: at its moment everything, and for ever
    after exactly if no save without a row is in flight and no socket can still
    send into the room. */
module MessageWipes {
  import opened Basics
  import opened MessageModel
  import opened MessageProofs

  /** Ending a room empties everything in it at that moment. */
  lemma EndWipes(w: ChatWorld, r: Id)
    requires ChatSound(w) && r !in w.endedAt
    ensures Wiped(ChatStep(w, EndRoomCall(r)), r)
  {
  }

  ghost predicate Wiped(w: ChatWorld, r: Id) {
    && r in w.endedAt
    && forall id :: id in w.messages && w.messages[id].key.room == r ==> w.messages[id].cipher == ""
  }

  ghost predicate HasRow(w: ChatWorld, k: Key) {
    exists id :: id in w.messages && w.messages[id].key == k
  }

  /** The call is on its way into the room, its client id has no row yet, and no
      block is in its way: one that has not been cleared yet meets the block. */
  ghost predicate Threatens(w: ChatWorld, c: Id, r: Id) {
    c in w.calls && InFlight(w.calls[c]) && w.calls[c].key.room == r && !HasRow(w, w.calls[c].key)
    && (w.calls[c].Entered? ==> r !in w.blocked)
  }

  /** The socket's session still takes the room for live, and neither lifetime nor
      a block stops it. */
  ghost predicate CanSend(w: ChatWorld, s: Id, r: Id) {
    s in w.sockets && w.sockets[s].room == r && w.sockets[s].connected && w.sockets[s].readAt.Some?
    && r !in w.lapsed && r !in w.blocked
  }

  ghost predicate Sealed(w: ChatWorld, r: Id) {
    (forall c :: !Threatens(w, c, r)) && (forall s :: !CanSend(w, s, r))
  }

  // ----- sealed is enough -----

  lemma RowsRemain(w: ChatWorld, c: ChatCall, k: Key)
    requires RowsOk(w) && HasRow(w, k)
    ensures HasRow(ChatStep(w, c), k)
  {
    StepMessages(w, c);
    var id :| id in w.messages && w.messages[id].key == k;
    assert id in ChatStep(w, c).messages && ChatStep(w, c).messages[id].key == k;
  }

  /** In an ended room nothing new threatens unless a socket sends it. */
  lemma StepThreat(w: ChatWorld, c: ChatCall, x: Id, r: Id)
    requires RowsOk(w) && r in w.endedAt && Threatens(ChatStep(w, c), x, r)
    ensures Threatens(w, x, r) || (c.SendCall? && CanSend(w, c.socket, r))
  {
    var w1 := ChatStep(w, c);
    StepFlights(w, c, x);
    if HasRow(w, w1.calls[x].key) {
      RowsRemain(w, c, w1.calls[x].key);
    }
    if x !in w.calls {
      SentOverCopy(w, c, x, r);
    }
  }

  lemma SentOverCopy(w: ChatWorld, c: ChatCall, x: Id, r: Id)
    requires r in w.endedAt && x !in w.calls && x in ChatStep(w, c).calls && InFlight(ChatStep(w, c).calls[x])
    requires ChatStep(w, c).calls[x].key.room == r
    ensures c.SendCall? && CanSend(w, c.socket, r)
  {
  }

  lemma StepSenders(w: ChatWorld, c: ChatCall, s: Id, r: Id)
    requires r in w.endedAt && CanSend(ChatStep(w, c), s, r)
    ensures CanSend(w, s, r)
  {
  }

  lemma StepSealed(w: ChatWorld, c: ChatCall, r: Id)
    requires RowsOk(w) && r in w.endedAt && Sealed(w, r)
    ensures Sealed(ChatStep(w, c), r)
  {
    var w1 := ChatStep(w, c);
    forall x
      ensures !Threatens(w1, x, r)
    {
      if Threatens(w1, x, r) {
        StepThreat(w, c, x, r);
      }
    }
    forall s
      ensures !CanSend(w1, s, r)
    {
      if CanSend(w1, s, r) {
        StepSenders(w, c, s, r);
      }
    }
  }

  lemma StepWiped(w: ChatWorld, c: ChatCall, r: Id)
    requires RowsOk(w) && Wiped(w, r) && Sealed(w, r)
    ensures Wiped(ChatStep(w, c), r)
  {
    var w1 := ChatStep(w, c);
    StepMessages(w, c);
    StepEnds(w, c);
    if Creates(w, c) {
      assert !Threatens(w, c.call, r);
      ExistingIsTheRow(w, w.calls[c.call].key);
    } else {
      forall id | id in w1.messages && w1.messages[id].key.room == r
        ensures w1.messages[id].cipher == ""
      {
        StepTexts(w, c, id);
      }
    }
  }

  /** A wiped room that is sealed stays wiped for ever. */
  lemma {:induction false} QuietEndStaysWiped(w: ChatWorld, r: Id, cs: seq<ChatCall>)
    requires ChatSound(w) && Wiped(w, r) && Sealed(w, r)
    ensures Wiped(ChatRun(w, cs), r) && Sealed(ChatRun(w, cs), r)
    decreases |cs|
  {
    if cs != [] {
      ChatStepKeeps(w, cs[0]);
      StepSealed(w, cs[0], r);
      StepWiped(w, cs[0], r);
      QuietEndStaysWiped(ChatStep(w, cs[0]), r, cs[1..]);
    }
  }

  // ----- and needed -----

  lemma NoRowNoneExists(w: ChatWorld, k: Key)
    requires RowsOk(w)
    ensures HasRow(w, k) <==> Existing(w, k).Some?
  {
    ExistingIsTheRow(w, k);
  }

  lemma LookedLands(w: ChatWorld, c: Id, r: Id)
    requires ChatSound(w) && r in w.endedAt && Threatens(w, c, r) && w.calls[c].Looked?
    ensures !Wiped(ChatRun(w, [InsertCall(c, true)]), r)
  {
    NoRowNoneExists(w, w.calls[c].key);
    OneStep(w, InsertCall(c, true));
    InsertOutcome(w, c, true);
    var w1 := ChatStep(w, InsertCall(c, true));
    assert w1.messages[w.nextMessage].key.room == r && w1.messages[w.nextMessage].cipher != "";
  }

  /** A threatening call that has not inserted gets one step closer. */
  lemma ThreatAdvances(w: ChatWorld, c: Id, r: Id) returns (step: ChatCall)
    requires ChatSound(w) && r in w.endedAt && Threatens(w, c, r) && !w.calls[c].Looked?
    ensures var w1 := ChatStep(w, step);
      ChatSound(w1) && r in w1.endedAt && Threatens(w1, c, r) && (w.calls[c].Cleared? ==> w1.calls[c].Looked?)
      && (w.calls[c].Entered? ==> w1.calls[c].Cleared?)
  {
    step := if w.calls[c].Entered? then ClearCall(c) else LookUpCall(c);
    ChatStepKeeps(w, step);
    NoRowNoneExists(w, w.calls[c].key);
    NoRowNoneExists(ChatStep(w, step), w.calls[c].key);
    if w.calls[c].Entered? {
      ClearOutcome(w, c);
    } else {
      LookUpOutcome(w, c);
    }
  }

  /** A save in flight whose id has no row, and that no block will meet, puts its
      text into the ended room. */
  lemma ThreatLands(w: ChatWorld, c: Id, r: Id) returns (cs: seq<ChatCall>)
    requires ChatSound(w) && r in w.endedAt && Threatens(w, c, r)
    ensures !Wiped(ChatRun(w, cs), r)
    decreases if w.calls[c].Entered? then 2 else if w.calls[c].Cleared? then 1 else 0
  {
    if w.calls[c].Looked? {
      LookedLands(w, c, r);
      cs := [InsertCall(c, true)];
    } else {
      var step := ThreatAdvances(w, c, r);
      var rest := ThreatLands(ChatStep(w, step), c, r);
      OneStep(w, step);
      RunSplit(w, [step], rest);
      cs := [step] + rest;
    }
  }

  function Zeros(n: nat): (s: string)
    ensures |s| == n
  {
    seq(n, _ => '0')
  }

  lemma {:induction false} Longer(ids: set<string>) returns (n: nat)
    ensures forall s :: s in ids ==> |s| < n
  {
    if ids == {} {
      n := 0;
    } else {
      var s: string :| s in ids;
      var m := Longer(ids - {s});
      n := if |s| < m then m else |s| + 1;
    }
  }

  lemma {:induction false} Above(ids: set<Id>) returns (n: Id)
    ensures forall x :: x in ids ==> x < n
  {
    if ids == {} {
      n := 0;
    } else {
      Inhabited(ids);
      var x :| x in ids;
      var m := Above(ids - {x});
      n := if x < m then m else x + 1;
      assert forall y :: y in ids ==> y == x || y in ids - {x};
    }
  }

  /** A call id and a client id nobody has used. */
  lemma Unused(w: ChatWorld) returns (c: Id, clientId: string)
    ensures c !in w.calls && forall id :: id in w.messages ==> w.messages[id].key.clientId != clientId
  {
    c := Above(w.calls.Keys);
    var n := Longer(set id | id in w.messages :: w.messages[id].key.clientId);
    clientId := Zeros(n);
  }

  /** A free socket that takes the room for live sends a text into it. */
  lemma SenderLands(w: ChatWorld, s: Id, r: Id) returns (cs: seq<ChatCall>)
    requires ChatSound(w) && r in w.endedAt && CanSend(w, s, r) && !Busy(w, s)
    ensures !Wiped(ChatRun(w, cs), r)
  {
    var c, clientId := Unused(w);
    var send := SendCall(s, c, clientId, "x");
    var w1 := ChatStep(w, send);
    ChatStepKeeps(w, send);
    var k := Key(r, w.sockets[s].sender, clientId);
    assert w1.calls[c] == Entered(k, "x", w.steps, Some(s)) && w1.messages == w.messages;
    assert Threatens(w1, c, r);
    var rest := ThreatLands(w1, c, r);
    OneStep(w, send);
    RunSplit(w, [send], rest);
    cs := [send] + rest;
  }

  lemma BusyCarries(w: ChatWorld, s: Id) returns (c: Id)
    ensures Busy(w, s) <==> Carries(w, s, c)
  {
    c := 0;
    if Busy(w, s) {
      c :| c in w.calls && InFlight(w.calls[c]) && w.calls[c].via == Some(s);
    }
  }

  /** The message a socket carries gets a step closer to being done with. */
  lemma SocketAdvances(w: ChatWorld, s: Id, r: Id, c: Id) returns (step: ChatCall)
    requires ChatSound(w) && r in w.endedAt && CanSend(w, s, r) && Carries(w, s, c) && !Threatens(w, c, r)
    ensures var w1 := ChatStep(w, step);
      && ChatSound(w1) && r in w1.endedAt && CanSend(w1, s, r) && c in w1.calls
      && (if w.calls[c].Entered? then w1.calls[c].Cleared? && Carries(w1, s, c) && !Threatens(w1, c, r) else !InFlight(w1.calls[c]))
      && forall d :: Carries(w1, s, d) ==> d == c
  {
    assert OriginOk(w, w.calls[c]);
    NoRowNoneExists(w, w.calls[c].key);
    step := if w.calls[c].Entered? then ClearCall(c) else if w.calls[c].Cleared? then LookUpCall(c) else RefuseCall(c);
    var w1 := ChatStep(w, step);
    ChatStepKeeps(w, step);
    NoRowNoneExists(w1, w.calls[c].key);
    if w.calls[c].Entered? {
      ClearOutcome(w, c);
    }
    forall d | Carries(w1, s, d)
      ensures d == c
    {
      StepFlights(w, step, d);
      assert Carries(w, s, d);
    }
  }

  /** Along every continuation an ended, wiped room stays wiped if and only if it
      is sealed: every save in flight has a row for its id already or has a block
      still to meet, and no socket can still send. */
  lemma StaysWipedExactly(w: ChatWorld, r: Id)
    requires ChatSound(w) && Wiped(w, r)
    ensures (forall cs :: Wiped(ChatRun(w, cs), r)) <==> Sealed(w, r)
  {
    if Sealed(w, r) {
      forall cs
        ensures Wiped(ChatRun(w, cs), r)
      {
        QuietEndStaysWiped(w, r, cs);
      }
    } else if c :| Threatens(w, c, r) {
      var cs := ThreatLands(w, c, r);
    } else {
      var s :| CanSend(w, s, r);
      var cs := AnySenderLands(w, s, r);
    }
  }

  /** Whatever message the socket carries, it will take another one. */
  lemma AnySenderLands(w: ChatWorld, s: Id, r: Id) returns (cs: seq<ChatCall>)
    requires ChatSound(w) && r in w.endedAt && CanSend(w, s, r) && forall c :: Carries(w, s, c) ==> !Threatens(w, c, r)
    ensures !Wiped(ChatRun(w, cs), r)
  {
    var c := BusyCarries(w, s);
    if Busy(w, s) {
      cs := CarrierLands(w, s, r, c);
    } else {
      cs := SenderLands(w, s, r);
    }
  }

  lemma CarrierLands(w: ChatWorld, s: Id, r: Id, c: Id) returns (cs: seq<ChatCall>)
    requires ChatSound(w) && r in w.endedAt && CanSend(w, s, r) && Carries(w, s, c) && !Threatens(w, c, r)
    ensures !Wiped(ChatRun(w, cs), r)
    decreases if w.calls[c].Entered? then 1 else 0
  {
    var step := SocketAdvances(w, s, r, c);
    var w1 := ChatStep(w, step);
    var rest: seq<ChatCall>;
    if w.calls[c].Entered? {
      rest := CarrierLands(w1, s, r, c);
    } else {
      var d := BusyCarries(w1, s);
      rest := SenderLands(w1, s, r);
    }
    OneStep(w, step);
    RunSplit(w, [step], rest);
    cs := [step] + rest;
  }

  /** With a save that passed its lookup in flight, a text can land in an ended
      room: exactly when the id has no row yet. */
  lemma LateInsertSurvives(w: ChatWorld, r: Id, c: Id, reread: bool)
    requires ChatSound(w) && r in w.endedAt && c in w.calls && w.calls[c].Looked? && w.calls[c].key.room == r
    ensures (exists id :: id in ChatStep(w, InsertCall(c, reread)).messages && id !in w.messages
                          && ChatStep(w, InsertCall(c, reread)).messages[id].cipher != "")
      <==> Existing(w, w.calls[c].key).None?
  {
    InsertOutcome(w, c, reread);
    if Existing(w, w.calls[c].key).None? {
      assert ChatStep(w, InsertCall(c, reread)).messages[w.nextMessage].cipher != "";
    }
  }

  /** In a room ended by a block a request that only passed the room check is
      turned away, whatever happens in between. */
  lemma {:induction false} BlockStopsTheEntered(w: ChatWorld, r: Id, c: Id, cs: seq<ChatCall>)
    requires ChatSound(w) && r in w.blocked && c in w.calls && w.calls[c].Entered? && w.calls[c].key.room == r
    ensures var w1 := ChatRun(w, cs);
      r in w1.blocked && c in w1.calls && (w1.calls[c] == w.calls[c] || w1.calls[c].Rejected?)
    decreases |cs|
  {
    if cs != [] {
      var w1 := ChatStep(w, cs[0]);
      ChatStepKeeps(w, cs[0]);
      StepBlockedEntry(w, cs[0], r, c);
      if w1.calls[c].Rejected? {
        RejectedStays(w1, c, r, cs[1..]);
      } else {
        BlockStopsTheEntered(w1, r, c, cs[1..]);
      }
    }
  }

  lemma StepBlockedEntry(w: ChatWorld, c: ChatCall, r: Id, x: Id)
    requires r in w.blocked && x in w.calls && w.calls[x].Entered? && w.calls[x].key.room == r
    ensures var w1 := ChatStep(w, c);
      r in w1.blocked && x in w1.calls && (w1.calls[x] == w.calls[x] || w1.calls[x].Rejected?)
  {
  }

  lemma {:induction false} RejectedStays(w: ChatWorld, c: Id, r: Id, cs: seq<ChatCall>)
    requires c in w.calls && w.calls[c].Rejected? && r in w.blocked
    ensures c in ChatRun(w, cs).calls && ChatRun(w, cs).calls[c].Rejected? && r in ChatRun(w, cs).blocked
    decreases |cs|
  {
    if cs != [] {
      StepRejected(w, cs[0], c, r);
      RejectedStays(ChatStep(w, cs[0]), c, r, cs[1..]);
    }
  }

  lemma StepRejected(w: ChatWorld, step: ChatCall, c: Id, r: Id)
    requires c in w.calls && w.calls[c].Rejected? && r in w.blocked
    ensures c in ChatStep(w, step).calls && ChatStep(w, step).calls[c].Rejected? && r in ChatStep(w, step).blocked
  {
  }

  // ----- two histories -----

  /** A request: its insert comes after the end of the room. */
  lemma WipeCanBeOutrun(w: ChatWorld)
    requires w == EmptyChat
    ensures var k := Key(1, 7, "a");
      var w1 := ChatRun(ChatRun(w, [EnterCall(1, k, "secret"), ClearCall(1)]), [EndRoomCall(1)]);
      var w2 := ChatRun(w1, [LookUpCall(1), InsertCall(1, true)]);
      Wiped(w1, 1) && 1 in w2.messages && w2.messages[1].key == k && w2.messages[1].cipher == "secret"
  {
    var k := Key(1, 7, "a");
    TwoSteps(w, EnterCall(1, k, "secret"), ClearCall(1));
    var w0 := ChatRun(w, [EnterCall(1, k, "secret"), ClearCall(1)]);
    EnterOutcome(w, 1, k, "secret");
    ClearOutcome(ChatStep(w, EnterCall(1, k, "secret")), 1);
    OneStep(w0, EndRoomCall(1));
    var w1 := ChatStep(w0, EndRoomCall(1));
    assert w1.messages == map[] && w1.nextMessage == 1 && WithKey(w1, k) == {};
    TwoSteps(w1, LookUpCall(1), InsertCall(1, true));
    FinishOutcome(w1, 1, true);
  }

  /** A socket: a message that begins after the end of the room is stored with its
      text. */
  lemma SocketOutlivesTheRoom(w: ChatWorld)
    requires w == EmptyChat
    ensures var w1 := ChatRun(w, [ConnectCall(5, 1, 7), EndRoomCall(1)]);
      var w2 := ChatRun(ChatRun(w1, [SendCall(5, 1, "a", "secret"), ClearCall(1)]), [LookUpCall(1), InsertCall(1, true)]);
      && Wiped(w1, 1) && w1.calls == map[]
      && 1 in w2.messages && w2.messages[1].key == Key(1, 7, "a") && w2.messages[1].cipher == "secret"
  {
    TwoSteps(w, ConnectCall(5, 1, 7), EndRoomCall(1));
    var w1 := ChatRun(w, [ConnectCall(5, 1, 7), EndRoomCall(1)]);
    assert w1.messages == map[] && w1.sockets == map[5 := Socket(1, 7, true, Some(0))] && w1.calls == map[];
    var k := Key(1, 7, "a");
    TwoSteps(w1, SendCall(5, 1, "a", "secret"), ClearCall(1));
    var w2 := ChatStep(w1, SendCall(5, 1, "a", "secret"));
    assert w2.calls[1] == Entered(k, "secret", 2, Some(5)) && w2.messages == map[] && w2.nextMessage == 1;
    ClearOutcome(w2, 1);
    var w3 := ChatStep(w2, ClearCall(1));
    assert WithKey(w3, k) == {};
    TwoSteps(w3, LookUpCall(1), InsertCall(1, true));
    FinishOutcome(w3, 1, true);
  }
}
