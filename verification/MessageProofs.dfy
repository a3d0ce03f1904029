/** Idempotence of message saves under any interleaving, and what the wipe of an
    ended room does and does not cover. */
module MessageProofs {
  import opened Basics
  import opened MessageModel

  ghost function CreatedBy(w: ChatWorld): set<Id> {
    set c | c in w.calls && w.calls[c].Saved? && w.calls[c].created
  }

  /** At most one row per client id. */
  ghost predicate RowsOk(w: ChatWorld) {
    && (forall id :: id in w.messages ==> id < w.nextMessage && w.messages[id].insertedAt < w.steps)
    && (forall id, other :: id in w.messages && other in w.messages && w.messages[id].key == w.messages[other].key
          ==> id == other)
  }

  ghost predicate CallsOk(w: ChatWorld) {
    && (forall c :: c in w.calls && w.calls[c].Saved? ==>
          w.calls[c].message in w.messages && w.messages[w.calls[c].message].key == w.calls[c].key)
    && (forall c :: c in w.calls && InFlight(w.calls[c]) ==> w.calls[c].cipher != "" && w.calls[c].enteredAt < w.steps)
  }

  /** Rows and creating calls correspond one to one. */
  ghost predicate Credited(w: ChatWorld) {
    && (forall c, d :: c in CreatedBy(w) && d in CreatedBy(w) && w.calls[c].message == w.calls[d].message ==> c == d)
    && |CreatedBy(w)| == |w.messages|
  }

  ghost predicate TextKept(w: ChatWorld, id: Id)
    requires id in w.messages
  {
    var r := w.messages[id].key.room;
    id !in w.removed && (r in w.endedAt ==> w.messages[id].insertedAt > w.endedAt[r])
  }

  /** A text is gone exactly when a moderator removed it or its room ended after
      it was inserted. */
  ghost predicate WipesOk(w: ChatWorld) {
    && (forall r :: r in w.endedAt ==> w.endedAt[r] < w.steps)
    && (forall id :: id in w.messages ==> (w.messages[id].cipher != "" <==> TextKept(w, id)))
    && w.removed <= w.messages.Keys
  }

  /** A session's copy of an ended room was read before the end. */
  ghost predicate SocketsOk(w: ChatWorld) {
    forall s :: s in w.sockets && w.sockets[s].readAt.Some? ==>
      var t := w.sockets[s].readAt.value;
      t < w.steps && (w.sockets[s].room in w.endedAt ==> t < w.endedAt[w.sockets[s].room])
  }

  /** A save that runs in an ended room entered it before the end or came over a
      socket of that room. */
  ghost predicate OriginOk(w: ChatWorld, p: Phase)
    requires InFlight(p)
  {
    match p.via
    case None => p.key.room in w.endedAt ==> p.enteredAt < w.endedAt[p.key.room]
    case Some(s) => s in w.sockets && w.sockets[s].room == p.key.room && w.sockets[s].sender == p.key.sender
  }

  ghost predicate OriginsOk(w: ChatWorld) {
    forall c :: c in w.calls && InFlight(w.calls[c]) ==> OriginOk(w, w.calls[c])
  }

  ghost predicate Carries(w: ChatWorld, s: Id, c: Id) {
    c in w.calls && InFlight(w.calls[c]) && w.calls[c].via == Some(s)
  }

  /** A socket carries one message at a time. */
  ghost predicate OneAtATime(w: ChatWorld) {
    forall s, c, d :: Carries(w, s, c) && Carries(w, s, d) ==> c == d
  }

  ghost predicate ChatSound(w: ChatWorld) {
    RowsOk(w) && CallsOk(w) && Credited(w) && WipesOk(w) && SocketsOk(w) && OriginsOk(w) && OneAtATime(w)
  }

  // ----- what it says -----

  /** All callers with one client id get the same message, whoever inserted it. */
  lemma SameIdSameMessage(w: ChatWorld, c: Id, d: Id)
    requires ChatSound(w) && c in w.calls && d in w.calls && w.calls[c].Saved? && w.calls[d].Saved?
    requires w.calls[c].key == w.calls[d].key
    ensures w.calls[c].message == w.calls[d].message
    ensures w.calls[c].created && w.calls[d].created ==> c == d
  {
    assert w.messages[w.calls[c].message].key == w.messages[w.calls[d].message].key;
  }

  lemma ExistingIsTheRow(w: ChatWorld, k: Key)
    requires RowsOk(w)
    ensures match Existing(w, k)
      case Some(id) => id in w.messages && w.messages[id].key == k
      case None => forall id :: id in w.messages ==> w.messages[id].key != k
  {
    if Existing(w, k).None? {
      forall id | id in w.messages
        ensures w.messages[id].key != k
      {
        assert id !in WithKey(w, k);
      }
    }
  }

  // ----- preservation, one part of the invariant at a time -----

  /** The only step that adds a row. */
  ghost predicate Creates(w: ChatWorld, c: ChatCall) {
    c.InsertCall? && c.call in w.calls && w.calls[c.call].Looked? && Existing(w, w.calls[c.call].key).None?
  }

  /** Rows keep their keys and times; the one that `c` creates is new. */
  lemma StepMessages(w: ChatWorld, c: ChatCall)
    requires RowsOk(w)
    ensures var w1 := ChatStep(w, c);
      && w.nextMessage !in w.messages
      && w1.messages.Keys == w.messages.Keys + (if Creates(w, c) then {w.nextMessage} else {})
      && (forall id :: id in w.messages ==>
            id in w1.messages && w1.messages[id].key == w.messages[id].key
            && w1.messages[id].insertedAt == w.messages[id].insertedAt)
      && (Creates(w, c) ==> w1.messages[w.nextMessage] == Message(w.calls[c.call].key, w.calls[c.call].cipher, w.steps))
  {
    match c
    case InsertCall(call, reread) =>
    case EndRoomCall(r) =>
    case RemoveCall(id) =>
    case _ => assert ChatStep(w, c).messages == w.messages;
  }

  lemma StepRows(w: ChatWorld, c: ChatCall)
    requires RowsOk(w)
    ensures RowsOk(ChatStep(w, c))
  {
    StepMessages(w, c);
    var w1 := ChatStep(w, c);
    if Creates(w, c) {
      ExistingIsTheRow(w, w.calls[c.call].key);
    }
    forall id | id in w1.messages
      ensures id < w1.nextMessage && w1.messages[id].insertedAt < w1.steps
      ensures id in w.messages || (id == w.nextMessage && Creates(w, c))
    {
    }
  }

  /** Answers stay; a call is answered by its own lookup or insert only. */
  lemma StepAnswers(w: ChatWorld, c: ChatCall, x: Id)
    requires x in ChatStep(w, c).calls && ChatStep(w, c).calls[x].Saved?
    ensures var p := ChatStep(w, c).calls[x];
      x in w.calls
      && if w.calls[x].Saved? then p == w.calls[x]
         else
           && InFlight(w.calls[x]) && (c == LookUpCall(x) || c == InsertCall(x, true) || c == InsertCall(x, false)) && p.key == w.calls[x].key
           && (p.created <==> Creates(w, c))
           && (if Creates(w, c) then p.message == w.nextMessage else Existing(w, p.key) == Some(p.message))
  {
  }

  ghost predicate JustEntered(w: ChatWorld, c: ChatCall, x: Id, p: Phase)
    requires InFlight(p)
  {
    p.cipher != "" && p.enteredAt == w.steps
    && match p.via
       case None => c.EnterCall? && c.call == x && p.key.room !in w.endedAt
       case Some(s) => c.SendCall? && c.call == x && c.socket == s && Listening(w, s)
                       && p.key.room == w.sockets[s].room && p.key.sender == w.sockets[s].sender
  }

  ghost predicate SameFlight(p: Phase, q: Phase) {
    InFlight(p) && InFlight(q) && p.key == q.key && p.cipher == q.cipher && p.enteredAt == q.enteredAt && p.via == q.via
  }

  lemma StepOldFlights(w: ChatWorld, c: ChatCall, x: Id)
    requires x in w.calls && x in ChatStep(w, c).calls && InFlight(ChatStep(w, c).calls[x])
    ensures SameFlight(w.calls[x], ChatStep(w, c).calls[x])
  {
  }

  lemma StepNewFlights(w: ChatWorld, c: ChatCall, x: Id)
    requires x !in w.calls && x in ChatStep(w, c).calls && InFlight(ChatStep(w, c).calls[x])
    ensures JustEntered(w, c, x, ChatStep(w, c).calls[x])
  {
  }

  /** Calls in flight were in flight before with the same text, or just entered. */
  lemma StepFlights(w: ChatWorld, c: ChatCall, x: Id)
    requires x in ChatStep(w, c).calls && InFlight(ChatStep(w, c).calls[x])
    ensures if x in w.calls then SameFlight(w.calls[x], ChatStep(w, c).calls[x]) else JustEntered(w, c, x, ChatStep(w, c).calls[x])
  {
    if x in w.calls {
      StepOldFlights(w, c, x);
    } else {
      StepNewFlights(w, c, x);
    }
  }

  lemma StepCalls(w: ChatWorld, c: ChatCall)
    requires RowsOk(w) && CallsOk(w)
    ensures CallsOk(ChatStep(w, c))
  {
    var w1 := ChatStep(w, c);
    StepMessages(w, c);
    forall x | x in w1.calls && w1.calls[x].Saved?
      ensures w1.calls[x].message in w1.messages && w1.messages[w1.calls[x].message].key == w1.calls[x].key
    {
      StepAnswers(w, c, x);
      ExistingIsTheRow(w, w1.calls[x].key);
    }
    forall x | x in w1.calls && InFlight(w1.calls[x])
      ensures w1.calls[x].cipher != "" && w1.calls[x].enteredAt < w1.steps
    {
      StepFlights(w, c, x);
    }
  }

  lemma SameSize<K, V>(m: map<K, V>, m1: map<K, V>)
    requires m.Keys == m1.Keys
    ensures |m| == |m1|
  {
    assert |m| == |m.Keys| && |m1| == |m1.Keys|;
  }

  lemma StepCreators(w: ChatWorld, c: ChatCall)
    requires RowsOk(w) && CallsOk(w)
    ensures var w1 := ChatStep(w, c);
      && (if Creates(w, c) then CreatedBy(w1) == CreatedBy(w) + {c.call} && c.call !in CreatedBy(w)
          else CreatedBy(w1) == CreatedBy(w))
      && (forall x :: x in CreatedBy(w) ==> w1.calls[x] == w.calls[x] && w.calls[x].message in w.messages)
      && (Creates(w, c) ==> w1.calls[c.call].message == w.nextMessage)
  {
    var w1 := ChatStep(w, c);
    forall x | x in CreatedBy(w1)
      ensures x in CreatedBy(w) || (Creates(w, c) && x == c.call)
    {
      StepAnswers(w, c, x);
    }
    forall x | x in CreatedBy(w)
      ensures x in w1.calls && w1.calls[x] == w.calls[x]
    {
      StepSaved(w, c, x);
    }
  }

  lemma StepSaved(w: ChatWorld, c: ChatCall, x: Id)
    requires x in w.calls && w.calls[x].Saved?
    ensures x in ChatStep(w, c).calls && ChatStep(w, c).calls[x] == w.calls[x]
  {
  }

  lemma StepCount(w: ChatWorld, c: ChatCall)
    requires RowsOk(w) && CallsOk(w) && Credited(w)
    ensures |CreatedBy(ChatStep(w, c))| == |ChatStep(w, c).messages|
  {
    StepCreators(w, c);
    StepRowCount(w, c);
  }

  lemma StepRowCount(w: ChatWorld, c: ChatCall)
    requires RowsOk(w)
    ensures |ChatStep(w, c).messages| == |w.messages| + if Creates(w, c) then 1 else 0
  {
    var rows := ChatStep(w, c).messages;
    StepMessages(w, c);
    SameSize(rows, if Creates(w, c) then w.messages[w.nextMessage := rows[w.nextMessage]] else w.messages);
  }

  lemma StepCredit(w: ChatWorld, c: ChatCall)
    requires RowsOk(w) && CallsOk(w) && Credited(w)
    ensures Credited(ChatStep(w, c))
  {
    StepCount(w, c);
    StepCreators(w, c);
    var w1 := ChatStep(w, c);
    forall x, y | x in CreatedBy(w1) && y in CreatedBy(w1) && w1.calls[x].message == w1.calls[y].message
      ensures x == y
    {
      assert x in CreatedBy(w) ==> w1.calls[x].message in w.messages;
      assert y in CreatedBy(w) ==> w1.calls[y].message in w.messages;
      StepMessages(w, c);
    }
  }

  /** Texts go only by a room's end or a moderator. */
  lemma StepTexts(w: ChatWorld, c: ChatCall, id: Id)
    requires id in w.messages && id in ChatStep(w, c).messages && !Creates(w, c)
    ensures ChatStep(w, c).messages[id].cipher
      == if (c.EndRoomCall? && c.room !in w.endedAt && c.room == w.messages[id].key.room) || c == RemoveCall(id)
         then "" else w.messages[id].cipher
  {
    match c
    case InsertCall(call, reread) =>
    case EndRoomCall(r) =>
    case RemoveCall(x) =>
    case _ => assert ChatStep(w, c).messages == w.messages;
  }

  lemma StepEnds(w: ChatWorld, c: ChatCall)
    ensures ChatStep(w, c).endedAt == if c.EndRoomCall? && c.room !in w.endedAt then w.endedAt[c.room := w.steps] else w.endedAt
    ensures ChatStep(w, c).removed == if c.RemoveCall? && c.message in w.messages then w.removed + {c.message} else w.removed
    ensures ChatStep(w, c).steps == w.steps + 1
  {
  }

  lemma StepWipes(w: ChatWorld, c: ChatCall)
    requires RowsOk(w) && CallsOk(w) && WipesOk(w)
    ensures WipesOk(ChatStep(w, c))
  {
    var w1 := ChatStep(w, c);
    StepMessages(w, c);
    StepEnds(w, c);
    forall id | id in w1.messages
      ensures w1.messages[id].cipher != "" <==> TextKept(w1, id)
    {
      if id in w.messages {
        assert w.messages[id].cipher != "" <==> TextKept(w, id);
        if !Creates(w, c) {
          StepTexts(w, c, id);
        }
      }
    }
  }

  lemma StepSockets(w: ChatWorld, c: ChatCall, s: Id)
    ensures s in w.sockets ==>
      && s in ChatStep(w, c).sockets
      && ChatStep(w, c).sockets[s].room == w.sockets[s].room && ChatStep(w, c).sockets[s].sender == w.sockets[s].sender
    ensures s in ChatStep(w, c).sockets && ChatStep(w, c).sockets[s].readAt.Some? ==>
      (s in w.sockets && ChatStep(w, c).sockets[s].readAt == w.sockets[s].readAt)
      || (ChatStep(w, c).sockets[s].readAt == Some(w.steps) && ChatStep(w, c).sockets[s].room !in w.endedAt && !c.EndRoomCall?)
  {
  }

  lemma StepCopies(w: ChatWorld, c: ChatCall)
    requires SocketsOk(w) && WipesOk(w)
    ensures SocketsOk(ChatStep(w, c))
  {
    var w1 := ChatStep(w, c);
    StepEnds(w, c);
    forall s | s in w1.sockets && w1.sockets[s].readAt.Some?
      ensures var t := w1.sockets[s].readAt.value;
        t < w1.steps && (w1.sockets[s].room in w1.endedAt ==> t < w1.endedAt[w1.sockets[s].room])
    {
      StepSockets(w, c, s);
    }
  }

  lemma StepOrigins(w: ChatWorld, c: ChatCall)
    requires OriginsOk(w) && CallsOk(w) && WipesOk(w)
    ensures OriginsOk(ChatStep(w, c))
  {
    var w1 := ChatStep(w, c);
    StepEnds(w, c);
    forall x | x in w1.calls && InFlight(w1.calls[x])
      ensures OriginOk(w1, w1.calls[x])
    {
      StepFlights(w, c, x);
      assert x in w.calls ==> OriginOk(w, w.calls[x]);
      if w1.calls[x].via.Some? {
        StepSockets(w, c, w1.calls[x].via.value);
      }
    }
  }

  lemma StepOneAtATime(w: ChatWorld, c: ChatCall)
    requires OneAtATime(w)
    ensures OneAtATime(ChatStep(w, c))
  {
    var w1 := ChatStep(w, c);
    forall s, x, y | Carries(w1, s, x) && Carries(w1, s, y)
      ensures x == y
    {
      StepFlights(w, c, x);
      StepFlights(w, c, y);
      assert x in w.calls ==> Carries(w, s, x);
      assert y in w.calls ==> Carries(w, s, y);
    }
  }

  lemma ChatStepKeeps(w: ChatWorld, c: ChatCall)
    requires ChatSound(w)
    ensures ChatSound(ChatStep(w, c))
  {
    StepRows(w, c);
    StepCalls(w, c);
    StepCredit(w, c);
    StepWipes(w, c);
    StepCopies(w, c);
    StepOrigins(w, c);
    StepOneAtATime(w, c);
  }

  lemma EmptyChatSound()
    ensures ChatSound(EmptyChat)
  {
  }

  lemma {:induction false} ChatRunKeeps(w: ChatWorld, cs: seq<ChatCall>)
    requires ChatSound(w)
    ensures ChatSound(ChatRun(w, cs))
    decreases |cs|
  {
    if cs != [] {
      ChatStepKeeps(w, cs[0]);
      ChatRunKeeps(ChatStep(w, cs[0]), cs[1..]);
    }
  }

  /** Idempotence over every interleaving from an empty table: one row per client
      id, as many rows as calls told that they created one. */
  lemma ReachableChat(cs: seq<ChatCall>)
    ensures ChatSound(ChatRun(EmptyChat, cs))
    ensures |ChatRun(EmptyChat, cs).messages| == |CreatedBy(ChatRun(EmptyChat, cs))|
  {
    ChatRunKeeps(EmptyChat, cs);
  }

  // ----- a saved answer is final -----

  ghost predicate SaysSaved(w: ChatWorld, k: Key, id: Id) {
    id in w.messages && w.messages[id].key == k
  }

  /** The call, if it has an answer for `k`, was told of row `id` as an old one. */
  ghost predicate ToldOf(w: ChatWorld, k: Key, id: Id, c: Id) {
    c in w.calls && w.calls[c].Saved? && w.calls[c].key == k ==> w.calls[c].message == id && !w.calls[c].created
  }

  lemma StepTold(w: ChatWorld, c: ChatCall, k: Key, id: Id, x: Id)
    requires RowsOk(w) && SaysSaved(w, k, id) && ToldOf(w, k, id, x)
    ensures SaysSaved(ChatStep(w, c), k, id) && ToldOf(ChatStep(w, c), k, id, x)
  {
    StepMessages(w, c);
    ExistingIsTheRow(w, k);
    if x in ChatStep(w, c).calls && ChatStep(w, c).calls[x].Saved? {
      StepAnswers(w, c, x);
    }
  }

  lemma {:induction false} RowStays(w: ChatWorld, cs: seq<ChatCall>, k: Key, id: Id, x: Id)
    requires ChatSound(w) && SaysSaved(w, k, id) && ToldOf(w, k, id, x)
    ensures SaysSaved(ChatRun(w, cs), k, id) && ToldOf(ChatRun(w, cs), k, id, x)
    decreases |cs|
  {
    if cs != [] {
      ChatStepKeeps(w, cs[0]);
      StepTold(w, cs[0], k, id, x);
      RowStays(ChatStep(w, cs[0]), cs[1..], k, id, x);
    }
  }

  /** Once a client id has a row, every later save with it, however interleaved,
      answers that row and creates nothing. */
  lemma RetriesFindTheRow(w: ChatWorld, cs: seq<ChatCall>, k: Key, id: Id, c: Id)
    requires ChatSound(w) && SaysSaved(w, k, id) && c !in w.calls
    ensures var w1 := ChatRun(w, cs);
      SaysSaved(w1, k, id)
      && (c in w1.calls && w1.calls[c].Saved? && w1.calls[c].key == k ==>
            w1.calls[c].message == id && !w1.calls[c].created)
  {
    RowStays(w, cs, k, id, c);
  }

  lemma {:induction false} RunSplit(w: ChatWorld, cs: seq<ChatCall>, ds: seq<ChatCall>)
    ensures ChatRun(w, cs + ds) == ChatRun(ChatRun(w, cs), ds)
    decreases |cs|
  {
    if cs == [] {
      assert cs + ds == ds;
    } else {
      assert (cs + ds)[1..] == cs[1..] + ds;
      RunSplit(ChatStep(w, cs[0]), cs[1..], ds);
    }
  }

  lemma OneStep(w: ChatWorld, a: ChatCall)
    ensures ChatRun(w, [a]) == ChatStep(w, a)
  {
    assert [a][1..] == [];
    assert ChatRun(ChatStep(w, a), []) == ChatStep(w, a);
  }

  lemma TwoSteps(w: ChatWorld, a: ChatCall, b: ChatCall)
    ensures ChatRun(w, [a, b]) == ChatStep(ChatStep(w, a), b)
  {
    assert [a, b][1..] == [b];
    OneStep(ChatStep(w, a), b);
  }

  lemma InsertOutcome(w: ChatWorld, c: Id, reread: bool)
    requires RowsOk(w) && c in w.calls && w.calls[c].Looked?
    ensures var w1, k := ChatStep(w, InsertCall(c, reread)), w.calls[c].key;
      && c in w1.calls && w1.endedAt == w.endedAt
      && (if Existing(w, k).None?
          then w1.calls[c] == Saved(k, w.nextMessage, true) && w.nextMessage !in w.messages
               && w1.messages == w.messages[w.nextMessage := Message(k, w.calls[c].cipher, w.steps)]
          else w1.calls[c] == (if reread then Saved(k, Existing(w, k).value, false) else Rejected) && w1.messages == w.messages)
  {
  }

  lemma ClearOutcome(w: ChatWorld, c: Id)
    requires c in w.calls && w.calls[c].Entered?
    ensures var w1, p := ChatStep(w, ClearCall(c)), w.calls[c];
      && c in w1.calls && w1.endedAt == w.endedAt && w1.messages == w.messages && Existing(w1, p.key) == Existing(w, p.key)
      && w1.nextMessage == w.nextMessage
      && w1.calls[c] == if p.key.room in w.blocked then Rejected else Cleared(p.key, p.cipher, p.enteredAt, p.via)
  {
    assert WithKey(ChatStep(w, ClearCall(c)), w.calls[c].key) == WithKey(w, w.calls[c].key);
  }

  lemma LookUpOutcome(w: ChatWorld, c: Id)
    requires c in w.calls && w.calls[c].Cleared?
    ensures var w1, p := ChatStep(w, LookUpCall(c)), w.calls[c];
      && c in w1.calls && w1.endedAt == w.endedAt && w1.messages == w.messages && Existing(w1, p.key) == Existing(w, p.key)
      && w1.calls[c] == if Existing(w, p.key).None? then Looked(p.key, p.cipher, p.enteredAt, p.via)
                        else Saved(p.key, Existing(w, p.key).value, false)
  {
    assert WithKey(ChatStep(w, LookUpCall(c)), w.calls[c].key) == WithKey(w, w.calls[c].key);
  }

  lemma EnterOutcome(w: ChatWorld, c: Id, k: Key, cipher: string)
    requires c !in w.calls && RoomOpen(w, k.room) && cipher != ""
    ensures var w1 := ChatStep(w, EnterCall(c, k, cipher));
      && c in w1.calls && w1.calls[c] == Entered(k, cipher, w.steps, None) && w1.blocked == w.blocked
      && w1.messages == w.messages && w1.nextMessage == w.nextMessage && Existing(w1, k) == Existing(w, k)
  {
    assert WithKey(ChatStep(w, EnterCall(c, k, cipher)), k) == WithKey(w, k);
  }

  /** The lookup and the insert of a call that was cleared. */
  lemma FinishOutcome(w: ChatWorld, c: Id, reread: bool)
    requires RowsOk(w) && c in w.calls && w.calls[c].Cleared?
    ensures var w1, k := ChatStep(ChatStep(w, LookUpCall(c)), InsertCall(c, reread)), w.calls[c].key;
      && c in w1.calls
      && (if Existing(w, k).None?
          then w1.calls[c] == Saved(k, w.nextMessage, true) && w.nextMessage !in w.messages
               && w1.messages == w.messages[w.nextMessage := Message(k, w.calls[c].cipher, w.steps + 1)]
          else w1.calls[c] == Saved(k, Existing(w, k).value, false) && w1.messages == w.messages)
  {
    LookUpOutcome(w, c);
    var w0 := ChatStep(w, LookUpCall(c));
    StepRows(w, LookUpCall(c));
    if Existing(w, w.calls[c].key).None? {
      InsertOutcome(w0, c, reread);
      assert w0.nextMessage == w.nextMessage && w0.steps == w.steps + 1;
    } else {
      assert !w0.calls[c].Looked?;
    }
  }

  /** A save that nobody interrupts, in an open room, is answered; it creates
      exactly one row, with its text, if the id had none, and none otherwise. */
  lemma SaveOutcome(w: ChatWorld, c: Id, k: Key, cipher: string)
    requires ChatSound(w) && c !in w.calls && RoomOpen(w, k.room) && cipher != ""
    ensures var w1 := Save(w, c, k, cipher);
      && ChatSound(w1) && c in w1.calls && w1.calls[c].Saved? && w1.calls[c].key == k
      && w1.calls[c].message in w1.messages && w1.messages[w1.calls[c].message].key == k
      && (w1.calls[c].created <==> Existing(w, k).None?)
      && (if Existing(w, k).None?
          then w1.calls[c].message !in w.messages && w1.messages[w1.calls[c].message].cipher == cipher
               && w1.messages == w.messages[w1.calls[c].message := w1.messages[w1.calls[c].message]]
          else w1.messages == w.messages)
  {
    var begin, finish := [EnterCall(c, k, cipher), ClearCall(c)], [LookUpCall(c), InsertCall(c, true)];
    ChatRunKeeps(w, begin + finish);
    ChatRunKeeps(w, begin);
    RunSplit(w, begin, finish);
    TwoSteps(w, EnterCall(c, k, cipher), ClearCall(c));
    TwoSteps(ChatRun(w, begin), LookUpCall(c), InsertCall(c, true));
    EnterOutcome(w, c, k, cipher);
    ClearOutcome(ChatStep(w, EnterCall(c, k, cipher)), c);
    FinishOutcome(ChatRun(w, begin), c, true);
    ExistingIsTheRow(w, k);
  }

  // ----- who is let in -----

  /** A request enters exactly a room that is neither ended nor lapsed nor blocked,
      with a text; any other is turned away, and no message changes. */
  lemma EnterExactly(w: ChatWorld, c: Id, k: Key, cipher: string)
    requires c !in w.calls
    ensures var w1 := ChatStep(w, EnterCall(c, k, cipher));
      && w1.messages == w.messages && w1.sockets == w.sockets && c in w1.calls
      && w1.calls[c] == if k.room !in w.endedAt && k.room !in w.lapsed && k.room !in w.blocked && cipher != ""
                        then Entered(k, cipher, w.steps, None) else Rejected
  {
  }

  /** A socket opens into the same rooms, with a copy of the row read at that step. */
  lemma ConnectExactly(w: ChatWorld, s: Id, r: Id, sender: Id)
    requires s !in w.sockets
    ensures ChatStep(w, ConnectCall(s, r, sender)).sockets
      == if r !in w.endedAt && r !in w.lapsed && r !in w.blocked
         then w.sockets[s := Socket(r, sender, true, Some(w.steps))] else w.sockets
  {
  }

  /** A message over a free socket is let in on the session's copy, or on a fresh
      read if there is none; lifetime and blocks always count. A fresh read of a
      live room becomes the copy; an old copy is kept. */
  lemma SendExactly(w: ChatWorld, s: Id, c: Id, clientId: string, cipher: string)
    requires c !in w.calls && s in w.sockets && w.sockets[s].connected && !Busy(w, s)
    ensures var w1, socket := ChatStep(w, SendCall(s, c, clientId, cipher)), w.sockets[s];
      var live := socket.readAt.Some? || socket.room !in w.endedAt;
      && c in w1.calls && s in w1.sockets && w1.messages == w.messages
      && w1.calls[c] == (if live && socket.room !in w.lapsed && socket.room !in w.blocked && cipher != ""
                         then Entered(Key(socket.room, socket.sender, clientId), cipher, w.steps, Some(s)) else Rejected)
      && w1.sockets[s] == socket.(readAt := if socket.readAt.Some? then socket.readAt
                                            else if socket.room !in w.endedAt then Some(w.steps) else None)
  {
  }

  /** A duplicate over a socket costs the session its copy: in an ended room the
      socket is then turned away. If the rows cannot be read again it is gone. */
  lemma DuplicateForgets(w: ChatWorld, c: Id, s: Id, reread: bool)
    requires c in w.calls && w.calls[c].Looked? && w.calls[c].via == Some(s) && s in w.sockets
    requires Existing(w, w.calls[c].key).Some?
    ensures var w1 := ChatStep(w, InsertCall(c, reread));
      && s in w1.sockets && w1.messages == w.messages
      && w1.sockets[s] == if reread then w.sockets[s].(readAt := None) else w.sockets[s].(connected := false)
  {
  }

  /** The refusals in between leave everything but the call alone. */
  lemma RefuseOutcome(w: ChatWorld, c: Id)
    requires c in w.calls && w.calls[c].Looked?
    ensures ChatStep(w, RefuseCall(c)) == w.(calls := w.calls[c := Rejected], steps := w.steps + 1)
  {
  }

  /** What ends, lapses or is blocked is that room and no other; what a moderator
      empties is that message and no other. */
  lemma RoomEvents(w: ChatWorld, r: Id, id: Id)
    ensures var w1 := ChatStep(w, EndRoomCall(r));
      && w1.endedAt.Keys == w.endedAt.Keys + {r} && w1.messages.Keys == w.messages.Keys
      && (forall x :: x in w.messages ==>
            w1.messages[x] == if w.messages[x].key.room == r && r !in w.endedAt then w.messages[x].(cipher := "") else w.messages[x])
      && w1.sockets == w.sockets && w1.calls == w.calls
    ensures ChatStep(w, LapseCall(r)) == w.(lapsed := w.lapsed + {r}, steps := w.steps + 1)
    ensures ChatStep(w, BlockCall(r)) == w.(blocked := w.blocked + {r}, steps := w.steps + 1)
    ensures id in w.messages ==>
      ChatStep(w, RemoveCall(id)).messages == w.messages[id := w.messages[id].(cipher := "")]
  {
  }

  /** A socket that is gone carries nothing more. */
  lemma DisconnectOutcome(w: ChatWorld, s: Id)
    requires s in w.sockets
    ensures var w1 := ChatStep(w, DisconnectCall(s));
      !Listening(w1, s) && w1.sockets.Keys == w.sockets.Keys && forall x :: x in w.sockets && x != s ==> w1.sockets[x] == w.sockets[x]
  {
  }
}
